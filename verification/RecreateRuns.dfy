// What a recreate promises over runs of any length: order of effects, finality of receipts, and
// retries that finish what an earlier attempt left undone.
module RecreateRuns {
  import opened Text
  import opened Tokens
  import opened Capacity
  import opened Ports
  import opened Ips
  import opened Docker
  import opened Creation
  import opened Recreate

  // ---------- the calls of one attempt ----------

  function CreatesIn(c: Call): nat {
    if c.CreateContainer? then 1 else 0
  }

  function CountCreates(calls: seq<Call>): nat {
    if calls == [] then 0
    else CountCreates(calls[..|calls| - 1]) + CreatesIn(calls[|calls| - 1])
  }

  lemma CountCreatesAppend(calls: seq<Call>, c: Call)
    ensures CountCreates(calls + [c]) == CountCreates(calls) + CreatesIn(c)
  {
    assert (calls + [c])[..|calls|] == calls;
  }

  lemma CountCreatesLookup(calls: seq<Call>, id: string, l: Lookup)
    ensures CountCreates(calls + LookupCalls(id, l)) == CountCreates(calls)
  {
    CountCreatesAppend(calls, Get(id));
    CountCreatesAppend(calls + [Get(id)], GetOwned(id));
    assert calls + [Get(id)] + [GetOwned(id)] == calls + [Get(id), GetOwned(id)];
  }

  predicate DestroysNothing(calls: seq<Call>) {
    forall c :: c in calls ==> !c.Destroy?
  }

  // Destroys nothing, and asks for a container once if one was made and at most once in any case.
  predicate Plain(r: CreateResult) {
    DestroysNothing(r.calls) && CountCreates(r.calls) <= 1 && (r.reply.Created? ==> CountCreates(r.calls) == 1)
  }

  lemma LaunchedCalls(setup: Setup, l: Ledger, request: CreateRequest, id: string, o: Outcomes, calls: seq<Call>, port: int)
    ensures var r := Launched(setup, l, request, id, o, calls, port);
            var calls1 := calls + [CreateContainer(request)];
            r.calls == calls1 || r.calls == calls1 + LookupCalls(id, o.after)
  {
  }

  lemma LaunchedPlain(setup: Setup, l: Ledger, request: CreateRequest, id: string, o: Outcomes, calls: seq<Call>, port: int)
    requires DestroysNothing(calls) && CountCreates(calls) == 0
    ensures Plain(Launched(setup, l, request, id, o, calls, port))
  {
    hide Launched, CountCreates;
    var calls1 := calls + [CreateContainer(request)];
    CountCreatesAppend(calls, CreateContainer(request));
    CountCreatesLookup(calls1, id, o.after);
    LaunchedCalls(setup, l, request, id, o, calls, port);
  }

  lemma HookedPlain(setup: Setup, l: Ledger, preStart: string, draft: CreateRequest, req: ServerRequest, id: string,
                    o: Outcomes, calls: seq<Call>, port: int)
    requires DestroysNothing(calls) && CountCreates(calls) == 0
    ensures Plain(Hooked(setup, l, preStart, draft, req, id, o, calls, port))
  {
    hide Launched, CountCreates;
    var hookEnv := if preStart == "" || o.hook == None then map[] else o.hook.value;
    var calls1 := if preStart == "" then calls else calls + [Hook(preStart)];
    CountCreatesAppend(calls, Hook(preStart));
    var request := Equipped(draft, hookEnv, req);
    LaunchedPlain(setup, l.(cap := Allocated(l.cap, id, RequestLimits(request))), request, id, o, calls1, port);
  }

  lemma ProvisionedPlain(setup: Setup, l: Ledger, req: ServerRequest, id: string, o: Outcomes, calls: seq<Call>)
    requires l.ips.Valid() && DestroysNothing(calls) && CountCreates(calls) == 0
    ensures Plain(Provisioned(setup, l, req, id, o, calls))
  {
    hide AllocatedNetwork, Hooked;
    if req.templateName in setup.templates {
      var t := setup.templates[req.templateName];
      var ports := FilteredPorts(t.container.ports, t.engines, req.env);
      var env := t.container.environment + t.server;
      var net := AllocatedNetwork(l.ports, l.ips, id, t.container.network, ports, env);
      if net.Network? {
        var draft := CreateRequest(id, t.container.network, net.ip, net.env, net.ports, t.container.cpuLimit, t.container.memoryLimit,
                                   t.container.memorySwap);
        HookedPlain(setup, l.(ports := net.ps, ips := net.ips), t.preStart, draft, req, id, o, calls, net.port);
      }
    }
  }

  // Without fencing tokens the only calls before the template lookup are lookups.
  lemma UnfencedAdmission(setup: Setup, l: Ledger, req: ServerRequest, o: Outcomes)
    ensures var admission := Admitted(setup, l, req, "", "", o, None);
            && admission.calls == (if req.serverID == "" then [] else LookupCalls(req.serverID, o.before))
            && (if admission.Done? then !admission.reply.Created? else admission.ledger == l)
  {
    hide FailedStatus;
  }

  lemma NoCalls()
    ensures CountCreates([]) == 0
  {
  }

  // Such a create destroys nothing.
  lemma UnfencedCreatePlain(setup: Setup, l: Ledger, req: ServerRequest, o: Outcomes)
    requires l.ips.Valid()
    ensures Plain(CreateSpec(setup, l, req, "", "", o, None))
  {
    hide Provisioned, Admitted, CountCreates;
    var admission := Admitted(setup, l, req, "", "", o, None);
    UnfencedAdmission(setup, l, req, o);
    NoCalls();
    CountCreatesLookup([], req.serverID, o.before);
    assert [] + LookupCalls(req.serverID, o.before) == LookupCalls(req.serverID, o.before);
    if admission.Proceed? {
      ProvisionedPlain(setup, admission.ledger, req, EffectiveID(req, o), o, admission.calls);
    }
  }

  // The old container is destroyed only after the replacement was made or found, by the last call
  // of all; a failed replacement leaves the old container alone.
  lemma DestroyComesLast(setup: Setup, s: State, oldID: string, req: Request, o: Answers, freed: Option<string>)
    requires s.ledger.ips.Valid()
    ensures var r := RecreateSpec(setup, s, oldID, req, o, freed);
            forall i :: 0 <= i < |r.calls| && r.calls[i].Destroy? ==> i == |r.calls| - 1 && r.calls[i].id == oldID
    ensures var r := RecreateSpec(setup, s, oldID, req, o, freed);
            (r.calls != [] && r.calls[|r.calls| - 1].Destroy?) <==>
            !Settles(s, oldID, req) && !Replacing(setup, s, req, o).reply.Failed?
  {
    hide CreateSpec;
    UnfencedCreatePlain(setup, s.ledger, req.replacement, o.create);
    var made := Replacing(setup, s, req, o);
    assert made.calls != [] ==> made.calls[|made.calls| - 1] in made.calls;
  }

  // ---------- what a request must be ----------

  // Up to 256 characters without control characters, and no white space at either end.
  predicate PlainText(s: string) {
    && 1 <= |s| <= 256 && !IsSpace(s[0]) && !IsSpace(s[|s| - 1])
    && forall i :: 0 <= i < |s| ==> 32 <= s[i] as int && !(127 <= s[i] as int <= 159)
  }

  // Such a text that is no path: neither slash nor backslash, and no two dots in a row.
  predicate PlainName(s: string) {
    && PlainText(s)
    && (forall i :: 0 <= i < |s| ==> s[i] != '/' && s[i] != '\\')
    && (forall i :: 0 <= i < |s| - 1 ==> !(s[i] == '.' && s[i + 1] == '.'))
  }

  // Up to 256 ASCII letters, digits and the four marks.
  predicate PlainToken(s: string) {
    1 <= |s| <= 256 && forall i :: 0 <= i < |s| ==>
      'A' <= s[i] <= 'Z' || 'a' <= s[i] <= 'z' || '0' <= s[i] <= '9' || s[i] in ['-', '_', '.', ':']
  }

  predicate InOrder(oldID: string, req: Request) {
    && PlainName(oldID) && PlainName(req.replacement.serverID) && req.replacement.serverID != oldID
    && PlainToken(req.key) && PlainToken(req.receiptID) && req.version == 1
    && req.claim == Some(Digest(req.version, req.key, req.receiptID, req.replacement))
  }

  lemma PlainNameIff(s: string)
    ensures ValidEffectIdentity(s) <==> PlainText(s)
    ensures ValidIdentity(s) <==> PlainName(s)
  {
    assert forall i :: 0 <= i < |s| ==> s[i] in s;
  }

  lemma PlainTokenIff(s: string)
    ensures ValidToken(s) <==> PlainToken(s)
  {
    assert forall i :: 0 <= i < |s| ==> s[i] in s;
  }

  lemma InOrderIff(oldID: string, req: Request)
    ensures WellFormed(oldID, req) <==> InOrder(oldID, req)
  {
    PlainNameIff(oldID);
    PlainNameIff(req.replacement.serverID);
    PlainTokenIff(req.key);
    PlainTokenIff(req.receiptID);
    hide ValidIdentity, ValidToken, PlainName, PlainToken;
  }

  lemma HookedKeepsCalls(setup: Setup, l: Ledger, preStart: string, draft: CreateRequest, req: ServerRequest, id: string,
                         o: Outcomes, calls: seq<Call>, port: int)
    ensures |calls| <= |Hooked(setup, l, preStart, draft, req, id, o, calls, port).calls|
  {
    hide Equipped, Project, AdvertisedPorts, RolledBack, Settled, Resolve;
  }

  lemma ProvisionedKeepsCalls(setup: Setup, l: Ledger, req: ServerRequest, id: string, o: Outcomes, calls: seq<Call>)
    requires l.ips.Valid()
    ensures |calls| <= |Provisioned(setup, l, req, id, o, calls).calls|
  {
    hide AllocatedNetwork, Hooked;
    if req.templateName in setup.templates {
      var t := setup.templates[req.templateName];
      var ports := FilteredPorts(t.container.ports, t.engines, req.env);
      var net := AllocatedNetwork(l.ports, l.ips, id, t.container.network, ports, t.container.environment + t.server);
      if net.Network? {
        var draft := CreateRequest(id, t.container.network, net.ip, net.env, net.ports, t.container.cpuLimit, t.container.memoryLimit,
                                   t.container.memorySwap);
        HookedKeepsCalls(setup, l.(ports := net.ps, ips := net.ips), t.preStart, draft, req, id, o, calls, net.port);
      }
    }
  }

  lemma CreatesLookUp(setup: Setup, l: Ledger, req: ServerRequest, o: Outcomes)
    requires l.ips.Valid() && req.serverID != ""
    ensures CreateSpec(setup, l, req, "", "", o, None).calls != []
  {
    UnfencedAdmission(setup, l, req, o);
    var admission := Admitted(setup, l, req, "", "", o, None);
    hide Provisioned, Admitted;
    if admission.Proceed? {
      ProvisionedKeepsCalls(setup, admission.ledger, req, EffectiveID(req, o), o, admission.calls);
    }
  }

  // A recreate calls Docker exactly for a request that is in order and whose key is new; any other
  // leaves everything as it is, and a key that is taken answers with its receipt for the same
  // version, key, receipt and replacement only.
  lemma ActsIff(setup: Setup, s: State, oldID: string, req: Request, o: Answers, freed: Option<string>)
    requires s.ledger.ips.Valid()
    ensures var r := RecreateSpec(setup, s, oldID, req, o, freed);
            && (r.calls != [] <==> InOrder(oldID, req) && req.key !in s.replays)
            && (r.calls == [] ==> r.state == s)
            && (!InOrder(oldID, req) ==> r.reply == Refused(400))
            && (InOrder(oldID, req) && req.key in s.replays ==>
                  r.reply == if s.replays[req.key].digest == Digest(req.version, req.key, req.receiptID, req.replacement)
                             then Receipted(s.replays[req.key].receipt) else Refused(409))
  {
    InOrderIff(oldID, req);
    if req.replacement.serverID != "" {
      CreatesLookUp(setup, s.ledger, req.replacement, o.create);
    }
    hide CreateSpec, ValidIdentity, ValidToken, PlainToken;
  }

  // A new receipt names the request, the old container and the server that replaces it.
  lemma ReceiptsName(setup: Setup, s: State, oldID: string, req: Request, o: Answers, freed: Option<string>)
    requires s.ledger.ips.Valid() && req.key !in s.replays
    ensures var r := RecreateSpec(setup, s, oldID, req, o, freed);
            var made := CreateSpec(setup, s.ledger, req.replacement, "", "", o.create, None);
            && (r.reply.Receipted? ==>
                  && !made.reply.Failed? && !(o.destroy.Some? && !o.destroy.value.notFound)
                  && r.reply.receipt == Receipt(1, req.key, req.receiptID, oldID, made.reply.server)
                  && r.state.replays == s.replays[req.key := Replay(Digest(1, req.key, req.receiptID, req.replacement), r.reply.receipt)])
            && (!r.reply.Receipted? ==> r.state.replays == s.replays)
            && (InOrder(oldID, req) && made.reply.Failed? ==> r.reply == Refused(made.reply.status))
            && (InOrder(oldID, req) && !made.reply.Failed? && o.destroy.Some? && !o.destroy.value.notFound ==> r.reply == Refused(500))
  {
    InOrderIff(oldID, req);
    hide CreateSpec, InOrder, ValidIdentity, ValidToken;
  }

  // ---------- runs ----------

  datatype Attempt = Attempt(oldID: string, req: Request, o: Answers, freed: Option<string>)

  ghost predicate Ready(s: State) {
    s.ledger.ips.Valid()
  }

  ghost function Do(setup: Setup, s: State, a: Attempt): RecreateResult
    requires Ready(s)
  {
    RecreateSpec(setup, s, a.oldID, a.req, a.o, a.freed)
  }

  lemma HookedKeepsRange(setup: Setup, l: Ledger, preStart: string, draft: CreateRequest, req: ServerRequest, id: string,
                         o: Outcomes, calls: seq<Call>, port: int)
    ensures var after := Hooked(setup, l, preStart, draft, req, id, o, calls, port).ledger.ips;
            after.start == l.ips.start && after.end == l.ips.end
  {
  }

  lemma AdmittedKeepsRange(setup: Setup, l: Ledger, req: ServerRequest, key: string, effect: string, o: Outcomes,
                           freed: Option<string>)
    ensures var admission := Admitted(setup, l, req, key, effect, o, freed);
            admission.Proceed? ==> admission.ledger.ips.start == l.ips.start && admission.ledger.ips.end == l.ips.end
  {
    hide FailedStatus, ValidToken;
  }

  lemma HostNetworkKeepsAddresses(ps: PoolSet, ips: IpState, id: string, ports: seq<PortSpec>, env: map<string, string>)
    ensures HostNetwork(ps, ips, id, ports, env).ips == ips
  {
  }

  lemma ConnectedKeepsRange(setup: Setup, l: Ledger, preStart: string, b: Blueprint, req: ServerRequest, id: string,
                            o: Outcomes, calls: seq<Call>)
    requires l.ips.Valid()
    ensures var after := Connected(setup, l, preStart, b, req, id, o, calls).ledger.ips;
            after.start == l.ips.start && after.end == l.ips.end
  {
    hide Hooked, HostNetwork;
    HostNetworkKeepsAddresses(l.ports, l.ips, id, b.ports, b.environment);
    var net := AllocatedNetwork(l.ports, l.ips, id, b.network, b.ports, b.environment);
    if net.Network? {
      var draft := CreateRequest(id, b.network, net.ip, net.env, net.ports, b.cpuLimit, b.memoryLimit, b.memorySwap);
      HookedKeepsRange(setup, l.(ports := net.ps, ips := net.ips), preStart, draft, req, id, o, calls, net.port);
    }
  }

  lemma CreateKeepsRange(setup: Setup, l: Ledger, req: ServerRequest, key: string, effect: string, o: Outcomes,
                         freed: Option<string>)
    requires l.ips.Valid()
    ensures var after := CreateSpec(setup, l, req, key, effect, o, freed).ledger.ips;
            after.start == l.ips.start && after.end == l.ips.end
  {
    hide Connected, Admitted, FilteredPorts;
    AdmittedKeepsRange(setup, l, req, key, effect, o, freed);
    var admission := Admitted(setup, l, req, key, effect, o, freed);
    if admission.Proceed? && req.templateName in setup.templates {
      var t := setup.templates[req.templateName];
      var b := t.container.(ports := FilteredPorts(t.container.ports, t.engines, req.env),
                            environment := t.container.environment + t.server);
      ConnectedKeepsRange(setup, admission.ledger, t.preStart, b, req, EffectiveID(req, o), o, admission.calls);
    }
  }

  lemma StaysReady(setup: Setup, s: State, a: Attempt)
    requires Ready(s)
    ensures Ready(Do(setup, s, a).state)
  {
    hide CreateSpec;
    CreateKeepsRange(setup, s.ledger, a.req.replacement, "", "", a.o.create, None);
  }

  // The state after a run of attempts.
  ghost function After(setup: Setup, s: State, run: seq<Attempt>): (after: State)
    requires Ready(s)
    ensures Ready(after)
  {
    if run == [] then s
    else
      var before := After(setup, s, run[..|run| - 1]);
      StaysReady(setup, before, run[|run| - 1]);
      Do(setup, before, run[|run| - 1]).state
  }

  // Everything a run asks of the outside.
  ghost function CallsOf(setup: Setup, s: State, run: seq<Attempt>): seq<Call>
    requires Ready(s)
  {
    if run == [] then []
    else
      CallsOf(setup, s, run[..|run| - 1]) + Do(setup, After(setup, s, run[..|run| - 1]), run[|run| - 1]).calls
  }

  // A receipt on record says what it is for.
  predicate Coherent(s: State) {
    forall k :: k in s.replays ==>
      var r := s.replays[k];
      && r.digest.key == k && r.receipt.key == k
      && r.digest.version == VERSION == r.receipt.version
      && r.digest.receiptID == r.receipt.receiptID
      && r.receipt.replacement.name == r.digest.replacement.serverID
  }

  lemma CreateNamesTheServer(setup: Setup, l: Ledger, req: ServerRequest, o: Outcomes)
    requires l.ips.Valid() && req.serverID != ""
    ensures var reply := CreateSpec(setup, l, req, "", "", o, None).reply;
            reply.Failed? || reply.server.name == req.serverID
  {
    hide HostNetwork, OverlayNetwork;
  }

  lemma DoKeepsReceipts(setup: Setup, s: State, a: Attempt)
    requires Ready(s) && Coherent(s)
    ensures var after := Do(setup, s, a).state;
            Coherent(after) && forall k :: k in s.replays ==> k in after.replays && after.replays[k] == s.replays[k]
    ensures a.req.key in s.replays ==> Do(setup, s, a).state == s && Do(setup, s, a).calls == []
  {
    hide CreateSpec;
    if !Settles(s, a.oldID, a.req) {
      CreateNamesTheServer(setup, s.ledger, a.req.replacement, a.o.create);
    }
  }

  lemma {:induction false} RunKeepsReceipts(setup: Setup, s: State, run: seq<Attempt>)
    requires Ready(s) && Coherent(s)
    ensures var after := After(setup, s, run);
            Coherent(after) && forall k :: k in s.replays ==> k in after.replays && after.replays[k] == s.replays[k]
  {
    hide Do;
    if run != [] {
      RunKeepsReceipts(setup, s, run[..|run| - 1]);
      DoKeepsReceipts(setup, After(setup, s, run[..|run| - 1]), run[|run| - 1]);
    }
  }

  // Once attempt a has got a receipt, whatever run follows, attempt b with the same key changes
  // nothing and asks nothing of the outside: it gets that very receipt if it is well-formed and of
  // the same immutable specification, and a conflict if it is well-formed and of another.
  lemma ReceiptsAreFinal(setup: Setup, s: State, a: Attempt, run: seq<Attempt>, b: Attempt)
    requires Ready(s) && Coherent(s)
    requires Do(setup, s, a).reply.Receipted? && b.req.key == a.req.key
    ensures var later := (StaysReady(setup, s, a); After(setup, Do(setup, s, a).state, run));
            var r := Do(setup, later, b);
            && r.state == later && r.calls == []
            && r.reply == if !WellFormed(b.oldID, b.req) then Refused(400)
                          else if DigestOf(b.req) == DigestOf(a.req) then Do(setup, s, a).reply
                          else Refused(409)
  {
    hide CreateSpec;
    StaysReady(setup, s, a);
    DoKeepsReceipts(setup, s, a);
    var s1 := Do(setup, s, a).state;
    assert a.req.key in s1.replays && s1.replays[a.req.key].digest == DigestOf(a.req)
           && Receipted(s1.replays[a.req.key].receipt) == Do(setup, s, a).reply;
    RunKeepsReceipts(setup, s1, run);
  }

  // ---------- retries ----------

  // The replacement's name leads to a running container c.
  predicate FindsRunning(req: Request, o: Answers, c: string) {
    match Resolve(req.replacement.serverID, o.create.before)
    case Present(server) => server.id == c && !FailedStatus(server.status)
    case _ => false
  }

  lemma RetryAdopts(setup: Setup, s: State, oldID: string, req: Request, o: Answers, c: string)
    requires Ready(s) && WellFormed(oldID, req) && FindsRunning(req, o, c)
    ensures var made := Replacing(setup, s, req, o);
            made.ledger == s.ledger && made.reply.Adopted? && made.reply.server.id == c
            && made.reply.server.name == req.replacement.serverID && CountCreates(made.calls) == 0
  {
    hide Provisioned;
    var id, before := req.replacement.serverID, o.create.before;
    CountCreatesLookup([], id, before);
    assert [] + LookupCalls(id, before) == LookupCalls(id, before);
  }

  // The same request again and again, each finding c in place, none able to destroy the old one.
  predicate FailingRetries(run: seq<Attempt>, oldID: string, req: Request, c: string) {
    forall a :: a in run ==> a.oldID == oldID && a.req == req && FindsRunning(req, a.o, c) && DestroyFails(a.o.destroy)
  }

  lemma FailingRetryChangesNothing(setup: Setup, s: State, a: Attempt, c: string)
    requires Ready(s) && !Settles(s, a.oldID, a.req) && FindsRunning(a.req, a.o, c) && DestroyFails(a.o.destroy)
    ensures Do(setup, s, a).state == s && CountCreates(Do(setup, s, a).calls) == 0
  {
    hide CreateSpec, CountCreates, FindsRunning;
    RetryAdopts(setup, s, a.oldID, a.req, a.o, c);
    CountCreatesAppend(Replacing(setup, s, a.req, a.o).calls, Destroy(a.oldID));
  }

  lemma {:induction false} CountCreatesSum(a: seq<Call>, b: seq<Call>)
    ensures CountCreates(a + b) == CountCreates(a) + CountCreates(b)
  {
    if b == [] {
      assert a + b == a;
    } else {
      CountCreatesSum(a, b[..|b| - 1]);
      assert (a + b)[..|a + b| - 1] == a + b[..|b| - 1];
    }
  }

  lemma {:induction false} FailingRetriesChangeNothing(setup: Setup, s: State, run: seq<Attempt>, oldID: string, req: Request, c: string)
    requires Ready(s) && !Settles(s, oldID, req) && FailingRetries(run, oldID, req, c)
    ensures After(setup, s, run) == s && CountCreates(CallsOf(setup, s, run)) == 0
  {
    hide Do, Settles, FindsRunning;
    if run != [] {
      var a := run[|run| - 1];
      FailingRetriesChangeNothing(setup, s, run[..|run| - 1], oldID, req, c);
      FailingRetryChangesNothing(setup, s, a, c);
      CountCreatesSum(CallsOf(setup, s, run[..|run| - 1]), Do(setup, s, a).calls);
    }
  }

  // What is on record once the old container is gone.
  predicate Recorded(s1: State, end: State, reply: RecreateReply, a: Attempt, c: string) {
    && end.ledger == Retired(s1.ledger, a.oldID, false, "", a.freed)
    && end.replays.Keys == s1.replays.Keys + {a.req.key}
    && end.replays[a.req.key].digest == DigestOf(a.req)
    && end.replays[a.req.key].receipt.oldID == a.oldID
    && end.replays[a.req.key].receipt.replacement.id == c
    && reply == Receipted(end.replays[a.req.key].receipt)
  }

  lemma LastAttempt(setup: Setup, s1: State, last: Attempt, c: string)
    requires Ready(s1) && !Settles(s1, last.oldID, last.req)
    requires FindsRunning(last.req, last.o, c) && !DestroyFails(last.o.destroy)
    ensures Recorded(s1, Do(setup, s1, last).state, Do(setup, s1, last).reply, last, c)
    ensures CountCreates(Do(setup, s1, last).calls) == 0
  {
    hide CreateSpec;
    RetryAdopts(setup, s1, last.oldID, last.req, last.o, c);
    CountCreatesAppend(Replacing(setup, s1, last.req, last.o).calls, Destroy(last.oldID));
  }

  lemma OneAttempt(setup: Setup, s: State, first: Attempt, freed: Option<string>, c: string)
    requires Ready(s) && !Settles(s, first.oldID, first.req)
    requires Replacing(setup, s, first.req, first.o).reply.Created?
    requires Replacing(setup, s, first.req, first.o).reply.server.id == c
    ensures var a := first.(o := first.o.(destroy := None), freed := freed);
            Recorded(s.(ledger := Replacing(setup, s, first.req, first.o).ledger), Do(setup, s, a).state, Do(setup, s, a).reply, a, c)
  {
    hide CreateSpec;
  }

  lemma FirstAttempt(setup: Setup, s: State, first: Attempt) returns (s1: State)
    requires Ready(s) && !Settles(s, first.oldID, first.req) && DestroyFails(first.o.destroy)
    requires Replacing(setup, s, first.req, first.o).reply.Created?
    ensures Ready(s1) && s1 == Do(setup, s, first).state && !Settles(s1, first.oldID, first.req)
    ensures s1 == s.(ledger := Replacing(setup, s, first.req, first.o).ledger)
    ensures CountCreates(Do(setup, s, first).calls) == 1
  {
    hide CreateSpec;
    StaysReady(setup, s, first);
    s1 := Do(setup, s, first).state;
    UnfencedCreatePlain(setup, s.ledger, first.req.replacement, first.o.create);
    CountCreatesAppend(Replacing(setup, s, first.req, first.o).calls, Destroy(first.oldID));
  }

  // A run is its first attempt and then the others.
  lemma {:induction false} AfterSplits(setup: Setup, s: State, first: Attempt, run: seq<Attempt>)
    requires Ready(s)
    ensures Ready(Do(setup, s, first).state)
    ensures After(setup, s, [first] + run) == After(setup, Do(setup, s, first).state, run)
    ensures CountCreates(CallsOf(setup, s, [first] + run)) ==
            CountCreates(Do(setup, s, first).calls) + CountCreates(CallsOf(setup, Do(setup, s, first).state, run))
  {
    hide Do;
    StaysReady(setup, s, first);
    var s1 := Do(setup, s, first).state;
    if run == [] {
      assert [first] + run == [first] && [first][..0] == [];
      assert CallsOf(setup, s, []) == [];
      CountCreatesSum([], Do(setup, s, first).calls);
      CountCreatesSum(Do(setup, s, first).calls, []);
      assert CallsOf(setup, s, [first]) == CallsOf(setup, s, []) + Do(setup, s, first).calls;
      assert CallsOf(setup, s1, run) == [];
    } else {
      var n := |run| - 1;
      AfterSplits(setup, s, first, run[..n]);
      assert ([first] + run)[..n + 1] == [first] + run[..n];
      var before := After(setup, s1, run[..n]);
      CountCreatesSum(CallsOf(setup, s, [first] + run[..n]), Do(setup, before, run[n]).calls);
      CountCreatesSum(CallsOf(setup, s1, run[..n]), Do(setup, before, run[n]).calls);
    }
  }

  // An attempt makes the replacement but cannot destroy the old container; any number of retries
  // fare no better; the last one destroys it. The ledgers end as those of an attempt that had
  // succeeded at once, one container was asked for in all, and the receipt is for the same one.
  lemma RetriesConverge(setup: Setup, s: State, first: Attempt, run: seq<Attempt>, last: Attempt)
    requires Ready(s) && Do(setup, s, first).reply == Refused(500) && DestroyFails(first.o.destroy)
    requires !Settles(s, first.oldID, first.req) && Replacing(setup, s, first.req, first.o).reply.Created?
    requires var c := Replacing(setup, s, first.req, first.o).reply.server.id;
             && FailingRetries(run, first.oldID, first.req, c)
             && last.oldID == first.oldID && last.req == first.req && FindsRunning(last.req, last.o, c)
             && !DestroyFails(last.o.destroy)
    ensures var whole := [first] + run + [last];
            var atOnce := Do(setup, s, first.(o := first.o.(destroy := None), freed := last.freed));
            var end := After(setup, s, whole);
            && end.ledger == atOnce.state.ledger
            && end.replays.Keys == atOnce.state.replays.Keys
            && end.replays[first.req.key].digest == atOnce.state.replays[first.req.key].digest
            && end.replays[first.req.key].receipt.oldID == first.oldID
            && end.replays[first.req.key].receipt.replacement.id == atOnce.reply.receipt.replacement.id
            && CountCreates(CallsOf(setup, s, whole)) == 1
  {
    hide CreateSpec;
    var c := Replacing(setup, s, first.req, first.o).reply.server.id;
    var s1 := FirstAttempt(setup, s, first);
    FailingRetriesChangeNothing(setup, s1, run, first.oldID, first.req, c);
    AfterSplits(setup, s, first, run);
    LastAttempt(setup, s1, last, c);
    OneAttempt(setup, s, first, last.freed, c);
    hide Do;
    var sofar := [first] + run;
    assert (sofar + [last])[..|sofar|] == sofar;
    assert After(setup, s, sofar) == s1;
    CountCreatesSum(CallsOf(setup, s, sofar), Do(setup, s1, last).calls);
  }

  // ---------- two things a receipt does not promise ----------

  // The lookup that decided the reply named the container that is about to be destroyed.
  predicate AnsweredWithOld(oldID: string, req: Request, o: Outcomes) {
    var id := req.replacement.serverID;
    match Resolve(id, o.before)
    case Present(server) => server.id == oldID
    case _ => o.create.Err? && Resolve(id, o.after).Present? && Resolve(id, o.after).server.id == oldID
  }

  // The replacement's name may already lead to the old container: it is then adopted, destroyed,
  // and recorded as the ready replacement of itself. Provided Docker gives new containers new IDs,
  // this happens exactly when a lookup by the replacement's name answers with the old container.
  lemma ReplacementIsOldContainerIff(setup: Setup, s: State, oldID: string, req: Request, o: Answers, freed: Option<string>)
    requires Ready(s) && !Settles(s, oldID, req)
    requires RecreateSpec(setup, s, oldID, req, o, freed).reply.Receipted?
    requires o.create.create.Ok? ==> o.create.create.value.id != oldID
    ensures RecreateSpec(setup, s, oldID, req, o, freed).reply.receipt.replacement.id == oldID <==>
            AnsweredWithOld(oldID, req, o.create)
  {
    hide OverlayNetwork, HostNetwork;
  }

  lemma RunningIsNotFailed()
    ensures !FailedStatus("running")
  {
    assert TrimSpace("running") == "running" && ToLower("running")[0] == 'r';
  }

  lemma SelfReplacingRequest() returns (req: Request, o: Answers)
    ensures WellFormed("c0", req) && req.key == "k" && FindsRunning(req, o, "c0") && o.destroy == None
  {
    var want := ServerRequest("t", "s", map[], None);
    req := Request(VERSION, "k", "r", want, Some(Digest(VERSION, "k", "r", want)));
    var running := Lookup(Ok(Some(Server("c0", "/s", "running", "", map[], 0.0, 0))), Err(DockerError(true, false)));
    o := Answers(Outcomes(0, running, None, None, Err(DockerError(false, false)), running), None);
    assert TrimSlash("/s") == "s";
    RunningIsNotFailed();
  }

  lemma AContainerCanReplaceItself(setup: Setup, s: State) returns (req: Request, o: Answers)
    requires Ready(s) && "k" !in s.replays
    ensures var r := RecreateSpec(setup, s, "c0", req, o, None);
            && r.reply.Receipted? && r.reply.receipt.replacement.id == "c0"
            && r.calls != [] && r.calls[|r.calls| - 1] == Destroy("c0")
  {
    hide CreateSpec, FindsRunning, WellFormed;
    req, o := SelfReplacingRequest();
    RetryAdopts(setup, s, "c0", req, o, "c0");
    DestroyComesLast(setup, s, "c0", req, o, None);
  }

  // The digest leaves the old container out: after a receipt for a, the same request for another
  // old container is answered with a's receipt. It names the container asked for exactly when that
  // is a's, and in no case is anything destroyed.
  lemma ReplayIgnoresOldContainer(setup: Setup, s: State, a: Attempt, run: seq<Attempt>, b: Attempt)
    requires Ready(s) && Coherent(s)
    requires Do(setup, s, a).reply.Receipted? && a.req.key !in s.replays
    requires b.req == a.req && WellFormed(b.oldID, b.req)
    ensures var later := (StaysReady(setup, s, a); After(setup, Do(setup, s, a).state, run));
            var r := Do(setup, later, b);
            r.reply.Receipted? && r.calls == [] && (r.reply.receipt.oldID == b.oldID <==> b.oldID == a.oldID)
  {
    hide CreateSpec;
    ReceiptsAreFinal(setup, s, a, run, b);
  }
}
