// Concrete cells and requests: ledgers that do not come out as one would hope, and a recreate that
// converges. The statements about all cells speak of something.
module Witnesses {
  import opened Text
  import opened Ownership
  import opened Capacity
  import opened Ports
  import opened PortSafety
  import opened PortGrants
  import opened PortRoom
  import opened Ips
  import opened Docker
  import opened Creation
  import opened Rollback
  import opened CreateOutcomes
  import opened Runs
  import opened RecreateRetries

  const NOTHING := Limits(0.0, 0.0)
  const ABSENT := Lookup(Err(DockerError(true, false)), Err(DockerError(true, false)))

  // A template without ports, in the given network.
  function Bare(network: string): Setup {
    Setup(map["t" := TemplateView(Blueprint(network, map[], [], 0.0, 0, 0), map[], "", [])], "", "", false)
  }

  const REQUEST := ServerRequest("t", "s", map[], None)

  function CreateAnswers(create: Result<Server>): Outcomes {
    Outcomes(0, ABSENT, None, None, create, ABSENT)
  }

  // No budget, ports 1 and 2 in the fallback pool, and two addresses.
  function Cell(ports: map<int, string>, addresses: map<string, string>): Ledger {
    Ledger(Tracked(NOTHING, NOTHING, map[]), PoolSet(Pool(1, 2, ports), map[]), IpState([0, 0, 0, 1], [0, 0, 0, 2], addresses))
  }

  lemma Proceeds(network: string, l: Ledger, o: Outcomes)
    requires o.before == ABSENT && l.ips.Valid()
    ensures Admitted(Bare(network), l, REQUEST, "", "", o, None).Proceed?
    ensures BaseLedger(Bare(network), l, REQUEST, "", "", o, None) == l
    ensures EffectiveID(REQUEST, o) == "s"
    ensures HasTemplate(Bare(network), REQUEST)
    ensures Prepared(Bare(network), REQUEST) == Blueprint(network, map[], [], 0.0, 0, 0)
  {
    var none: map<string, string> := map[];
    assert none + none == none;
  }

  // ---------- ports that were kept for a server ----------

  lemma NotAdopted(l: Ledger, o: Outcomes)
    requires l.ips.Valid() && o.before == ABSENT && o.create.Err? && !o.create.error.nameConflict
    ensures CreateSpec(Bare(""), l, REQUEST, "", "", o, None).reply.Failed?
  {
    Proceeds("", l, o);
    hide Connected, NetworkHasRoom, FinalLimits;
    ConnectedOutcome(Bare(""), l, "", Prepared(Bare(""), REQUEST), REQUEST, "s", o, LookupCalls("s", ABSENT));
  }

  // Container c0 holds port 1. It is retired with its ports kept for s, and then a create of s in
  // host mode fails: port 1 is not kept for s any more.
  lemma KeptPortsGetDropped() returns (l: Ledger, o: Outcomes)
    ensures Owns(l.ports, 1, "c0") && l.ips.Valid()
    ensures var kept := Retired(l, "c0", true, "s", None);
            && Owns(kept.ports, 1, "s")
            && CreateSpec(Bare(""), kept, REQUEST, "", "", o, None).reply.Failed?
            && !SameUpToEmptyPools(kept.ports, CreateSpec(Bare(""), kept, REQUEST, "", "", o, None).ledger.ports)
  {
    l, o := Cell(map[1 := "c0"], map[]), CreateAnswers(Err(DockerError(false, false)));
    var kept := Retired(l, "c0", true, "s", None);
    assert PoolOwns(l.ports.fallback, 1, "c0");
    ReKeyOwnership(l.ports, "c0", "s");
    Proceeds("", kept, o);
    assert FirstFree(1, 2, kept.ports.fallback.owners) == Some(2);
    hide CreateSpec, Admitted, Prepared, BaseLedger, HasTemplate, EffectiveID;
    CreatedIff(Bare(""), kept, REQUEST, "", "", o, None);
    HostRollbackDropsEarlierPorts(Bare(""), kept, REQUEST, "", "", o, None);
    NotAdopted(kept, o);
  }

  // ---------- an address that leaks ----------

  const HELD := "0.0.0.1"

  lemma LastByte(s: seq<Byte>, b: Byte)
    ensures Value(s + [b]) == 256 * Value(s) + b
  {
    assert (s + [b])[..|s|] == s;
  }

  lemma HeldIsFirst(p: IpState)
    requires p.start == [0, 0, 0, 1] && p.end == [0, 0, 0, 2]
    ensures p.Valid() && Candidate(p, 0) == HELD && Span(p) == 1
  {
    assert Decimal(0) == "0" && Decimal(1) == "1";
    LastByte([0, 0, 0], 1);
    LastByte([0, 0, 0], 2);
    LastByte([0, 0], 0);
    assert [0, 0, 0] + [1] == p.start && [0, 0, 0] + [2] == p.end && [0, 0] + [0] == [0, 0, 0];
  }

  lemma AddressKept(l: Ledger)
    requires l == Cell(map[], map[HELD := "c0"])
    ensures var kept := Retired(l, "c0", true, "s", None);
            && l.ips.Valid() && kept.ips == l.ips.(owners := map[HELD := "s"]) && kept.cap == l.cap
            && !OwnsNone(l.ips.owners, "c0") && OwnsNone(kept.ips.owners, "c1")
  {
    assert l.ips.owners[HELD] == "c0";
    var kept := Retired(l, "c0", true, "s", None);
    assert kept.ips.owners == map[HELD := "s"];
  }

  lemma RoomForAddress(l: Ledger, b: Blueprint)
    requires l.ips == Cell(map[], map[HELD := "s"]).ips && b.network != ""
    ensures l.ips.Valid() && NetworkHasRoom(l, b)
  {
    HeldIsFirst(l.ips);
    hide Candidate, Span;
    CandidatesDistinct(l.ips, 0, 1);
    assert Candidate(l.ips, 1) !in l.ips.owners;
  }

  lemma FitsWithoutBudget(l: Ledger, b: Blueprint)
    requires l.cap.budget == NOTHING
    ensures CanFit(l.cap.alloc, FinalLimits(b, REQUEST), l.cap.budget)
  {
  }

  // Container c0 holds the pool's first address. It is retired with its address kept for s, and s is
  // created again in overlay mode as c1. Then c1 can be retired so that it still holds an address.
  lemma AnAddressLeaks() returns (l: Ledger, o: Outcomes, freed: Option<string>)
    ensures l.ips.Valid() && Candidate(l.ips, 0) == HELD && l.ips.owners == map[HELD := "c0"]
    ensures var kept := Retired(l, "c0", true, "s", None);
            var r := CreateSpec(Bare("overlay"), kept, REQUEST, "", "", o, None);
            && r.reply.Created? && r.reply.server.id == "c1" && Frees(r.ledger.ips, "c1", freed)
            && !OwnsNone(Retired(r.ledger, "c1", false, "", freed).ips.owners, "c1")
  {
    var setup := Bare("overlay");
    l, o := Cell(map[], map[HELD := "c0"]), CreateAnswers(Ok(Server("c1", "s", "running", "", map[], 0.0, 0)));
    var kept, b := Retired(l, "c0", true, "s", None), Prepared(setup, REQUEST);
    HeldIsFirst(l.ips);
    AddressKept(l);
    Proceeds("overlay", kept, o);
    var calls := LookupCalls("s", ABSENT);
    assert CreateSpec(setup, kept, REQUEST, "", "", o, None) == Connected(setup, kept, "", b, REQUEST, "s", o, calls);
    RoomForAddress(kept, b);
    FitsWithoutBudget(kept, b);
    hide CreateSpec, Retired, Connected, Prepared, FinalLimits, NetworkHasRoom, CanFit, OwnsNone, Bare, Frees, Candidate;
    ConnectedOutcome(setup, kept, "", b, REQUEST, "s", o, calls);
    ConnectedAnswer(setup, kept, "", b, REQUEST, "s", o, calls);
    freed := KeptAddressLeaks(setup, l, "c0", "", b, REQUEST, "s", o, calls);
  }

  // ---------- a recreate that takes three attempts ----------

  const OLD := "c0"

  function RecreateRequest(): Recreate.Request {
    Recreate.Request(Recreate.VERSION, "k", "r", REQUEST, Some(Recreate.Digest(Recreate.VERSION, "k", "r", REQUEST)))
  }

  // An attempt that looks up, creates and destroys with these answers.
  function AttemptWith(before: Lookup, create: Result<Server>, destroy: Option<DockerError>): RecreateRuns.Attempt {
    RecreateRuns.Attempt(OLD, RecreateRequest(), Recreate.Answers(Outcomes(0, before, None, None, create, ABSENT), destroy), None)
  }

  const NEW_SERVER := Server("c1", "s", "running", "", map[], 0.0, 0)
  const RUNNING := Lookup(Ok(Some(Server("c1", "/s", "running", "", map[], 0.0, 0))), Err(DockerError(true, false)))
  const FAILS := DockerError(false, false)

  const FIRST := AttemptWith(ABSENT, Ok(NEW_SERVER), Some(FAILS))
  const RETRY := AttemptWith(RUNNING, Err(FAILS), Some(FAILS))
  const LAST := AttemptWith(RUNNING, Err(FAILS), None)

  lemma RequestIsWellFormed()
    ensures Recreate.WellFormed(OLD, RecreateRequest())
  {
  }

  lemma FirstCreates(l: Ledger)
    requires l == Cell(map[1 := OLD], map[])
    ensures l.ips.Valid()
    ensures var reply := CreateSpec(Bare(""), l, REQUEST, "", "", FIRST.o.create, None).reply;
            reply.Created? && reply.server.id == "c1"
  {
    Proceeds("", l, FIRST.o.create);
    assert FirstFree(1, 2, l.ports.fallback.owners) == Some(2);
    assert FreeCount(1, 2, l.ports.fallback.owners) == 1;
    CreateAnswer(Bare(""), l, REQUEST, "", "", FIRST.o.create, None);
    hide FinalLimits, Prepared, Admitted;
    CreatedIff(Bare(""), l, REQUEST, "", "", FIRST.o.create, None);
  }

  lemma FirstMakes(w0: World) returns (w1: World)
    requires w0.cell.ledger.ips.Valid() && w0.cell.replays == map[]
    requires var reply := CreateSpec(Bare(""), w0.cell.ledger, REQUEST, "", "", FIRST.o.create, None).reply;
             reply.Created? && reply.server.id == "c1"
    ensures MadeOnly(Bare(""), w0, FIRST, w1, "c1")
  {
    RequestIsWellFormed();
    hide CreateSpec, Bare, Recreate.WellFormed, Stepped;
    w1 := Stepped(Bare(""), w0, RecreateStep(FIRST));
  }

  lemma RetryFindsIt()
    ensures RecreateRuns.FindsRunning(RecreateRequest(), RETRY.o, "c1")
    ensures RecreateRuns.FindsRunning(RecreateRequest(), LAST.o, "c1")
  {
    assert TrimSlash("/s") == "s";
    RecreateRuns.RunningIsNotFailed();
  }

  lemma RetryIsVain(physical: iset<string>, w: World)
    requires RecreateRuns.Ready(w.cell) && !Recreate.Settles(w.cell, OLD, RecreateRequest())
    requires Possible(Bare(""), physical, w, RecreateStep(RETRY))
    ensures var run := [RecreateStep(RETRY)];
            && Reaches(Bare(""), w, run, w) && PossibleRun(Bare(""), physical, w, run)
            && Interleaved(Bare(""), w, run, OLD, RecreateRequest(), "c1")
  {
    var run := [RecreateStep(RETRY)];
    RetryFindsIt();
    hide Stepped, Possible, Recreate.Settles, RecreateRuns.FindsRunning, Bare;
    VainChangesNothing(Bare(""), w, run[0], OLD, RecreateRequest(), "c1");
    assert Reaches(Bare(""), w, run[1..], w);
  }

  lemma LastFinishes(w: World) returns (end: World)
    requires RecreateRuns.Ready(w.cell)
    ensures Finished(Bare(""), w, LAST, end, "c1")
  {
    RetryFindsIt();
    hide Stepped, Bare, RecreateRuns.FindsRunning;
    end := Stepped(Bare(""), w, RecreateStep(LAST));
  }

  lemma AttemptsArePossible(physical: iset<string>, l: Ledger)
    requires physical == iset{OLD, "c1"} && l == Cell(map[1 := OLD], map[])
    ensures var w := World(Recreate.State(l, map[]), {OLD});
            Grounded(physical, w) && Possible(Bare(""), physical, w, RecreateStep(FIRST))
    ensures forall v: World :: RecreateRuns.Ready(v.cell) ==> Possible(Bare(""), physical, v, RecreateStep(RETRY))
  {
    hide CreateSpec;
  }

  // The old container c0 holds port 1. The first attempt makes c1 and fails to destroy c0, a retry
  // finds c1 and fails again, and the last one succeeds.
  lemma ARecreateCanConverge(physical: iset<string>) returns (w0: World, w1: World, end: World)
    requires physical == iset{OLD, "c1"}
    ensures Owns(w0.cell.ledger.ports, 1, OLD)
    ensures Grounded(physical, w0) && Possible(Bare(""), physical, w0, RecreateStep(FIRST))
    ensures MadeOnly(Bare(""), w0, FIRST, w1, "c1") && Grounded(physical, w1)
    ensures var run := [RecreateStep(RETRY)];
            && Reaches(Bare(""), w1, run, w1) && PossibleRun(Bare(""), physical, w1, run)
            && Interleaved(Bare(""), w1, run, OLD, RecreateRequest(), "c1")
    ensures Finished(Bare(""), w1, LAST, end, "c1")
  {
    var l := Cell(map[1 := OLD], map[]);
    w0 := World(Recreate.State(l, map[]), {OLD});
    assert PoolOwns(l.ports.fallback, 1, OLD);
    AttemptsArePossible(physical, l);
    FirstCreates(l);
    w1 := FirstMakes(w0);
    StepGrounded(Bare(""), physical, w0, RecreateStep(FIRST));
    AfterFirst(Bare(""), w0, FIRST, w1, "c1");
    hide MadeOnly, Owns, Possible, Recreate.Settles, Cell, Stepped, Vain, Finished;
    RetryIsVain(physical, w1);
    end := LastFinishes(w1);
  }
}
