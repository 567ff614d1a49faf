// What the capacity ledger stands for: the cores and bytes that Docker was asked to give.
module Promises {
  import opened Text
  import opened Capacity
  import opened Ips
  import opened Docker
  import opened Creation
  import opened Rollback
  import opened Recreate
  import opened RecreateRuns
  import opened Runs

  // Cores and bytes.
  datatype Promise = Promise(cpu: real, bytes: int)

  // What has been promised to each running container.
  type Promised = map<string, Promise>

  // ---------- what steps promise ----------

  // A create that makes a container promises it what Docker was asked for last.
  function AfterCreate(m: Promised, r: CreateResult): Promised {
    if r.reply.Created? && r.calls != [] && r.calls[|r.calls| - 1].CreateContainer? then
      var q := r.calls[|r.calls| - 1].request;
      m[r.reply.server.id := Promise(q.cpuLimit, q.memoryLimit)]
    else m
  }

  // What a container that is destroyed was promised is free again.
  ghost function AfterStep(setup: Setup, w: World, m: Promised, step: Step): Promised
    requires Ready(w.cell)
  {
    match step
    case CreateStep(req, key, effect, o, freed) =>
      var kept := if Recovers(setup, req, key, effect, o) && !DestroyFails(o.destroy)
                  then m - {Resolve(req.serverID, o.before).server.id} else m;
      AfterCreate(kept, CreateSpec(setup, w.cell.ledger, req, key, effect, o, freed))
    case RetireStep(id, _, _, destroy, _) => if DestroyFails(destroy) then m else m - {id}
    case RecreateStep(a) =>
      if Settles(w.cell, a.oldID, a.req) then m
      else
        var made := Replacing(setup, w.cell, a.req, a.o);
        var m1 := AfterCreate(m, made);
        if made.reply.Failed? || DestroyFails(a.o.destroy) then m1 else m1 - {a.oldID}
  }

  ghost function AfterRun(setup: Setup, w: World, m: Promised, run: seq<Step>): Promised
    decreases |run|
  {
    if run == [] || !Ready(w.cell) then m
    else AfterRun(setup, Stepped(setup, w, run[0]), AfterStep(setup, w, m, run[0]), run[1..])
  }

  // The ledger has an entry for each promise, in cores and GiB.
  predicate Stands(m: Promised, cap: Tracked) {
    && m.Keys == cap.containers.Keys
    && forall c :: c in m ==> cap.containers[c].cpu == m[c].cpu && cap.containers[c].mem * 1073741824.0 == m[c].bytes as real
  }

  lemma HookedPromises(setup: Setup, l: Ledger, preStart: string, draft: CreateRequest, req: ServerRequest, id: string,
                       o: Outcomes, calls: seq<Call>, port: int)
    requires id !in l.cap.containers
    ensures var r := Hooked(setup, l, preStart, draft, req, id, o, calls, port);
            if r.reply.Created? then
              && r.calls != [] && r.calls[|r.calls| - 1].CreateContainer?
              && r.ledger.cap == Allocated(l.cap, r.reply.server.id, RequestLimits(r.calls[|r.calls| - 1].request))
            else r.ledger.cap == l.cap
  {
    var hookEnv := if preStart == "" || o.hook == None then map[] else o.hook.value;
    var request := Equipped(draft, hookEnv, req);
    if Hooked(setup, l, preStart, draft, req, id, o, calls, port).reply.Created? {
      CommitMovesAllocation(l.cap, id, o.create.value.id, RequestLimits(request));
    } else {
      HookedNotCreated(setup, l, preStart, draft, req, id, o, calls, port);
    }
    hide AdvertisedPorts, Resolve, HeapEnv, FinalCPU, FinalMemory, FinalSwap, CanFit;
  }

  lemma AllocatedStands(m: Promised, cap: Tracked, c: string, q: CreateRequest)
    requires Stands(m, cap)
    ensures Stands(m[c := Promise(q.cpuLimit, q.memoryLimit)], Allocated(cap, c, RequestLimits(q)))
  {
  }

  lemma ReleasedStands(m: Promised, cap: Tracked, c: string)
    requires Stands(m, cap)
    ensures Stands(m - {c}, Released(cap, c)) && Released(cap, c).budget == cap.budget
  {
    assert c !in m ==> m - {c} == m;
  }

  lemma ConnectedStands(setup: Setup, m: Promised, l: Ledger, preStart: string, b: Blueprint, req: ServerRequest, id: string,
                        o: Outcomes, calls: seq<Call>)
    requires l.ips.Valid() && Stands(m, l.cap) && id !in l.cap.containers
    ensures var r := Connected(setup, l, preStart, b, req, id, o, calls);
            Stands(AfterCreate(m, r), r.ledger.cap) && r.ledger.cap.budget == l.cap.budget
  {
    hide Hooked, AllocatedNetwork, Stands;
    var net := AllocatedNetwork(l.ports, l.ips, id, b.network, b.ports, b.environment);
    if net.Network? {
      var l1 := l.(ports := net.ps, ips := net.ips);
      var draft := CreateRequest(id, b.network, net.ip, net.env, net.ports, b.cpuLimit, b.memoryLimit, b.memorySwap);
      HookedPromises(setup, l1, preStart, draft, req, id, o, calls, net.port);
      var r := Hooked(setup, l1, preStart, draft, req, id, o, calls, net.port);
      if r.reply.Created? {
        AllocatedStands(m, l.cap, r.reply.server.id, r.calls[|r.calls| - 1].request);
      }
    }
  }

  lemma CreateStands(setup: Setup, m: Promised, l: Ledger, req: ServerRequest, key: string, effect: string, o: Outcomes,
                     freed: Option<string>)
    requires l.ips.Valid() && Stands(m, l.cap) && EffectiveID(req, o) !in l.cap.containers
    ensures var r := CreateSpec(setup, l, req, key, effect, o, freed);
            var kept := if Recovers(setup, req, key, effect, o) && !DestroyFails(o.destroy)
                        then m - {Resolve(req.serverID, o.before).server.id} else m;
            Stands(AfterCreate(kept, r), r.ledger.cap) && r.ledger.cap.budget == l.cap.budget
  {
    AdmissionMakesNothing(setup, l, req, key, effect, o, freed);
    AdmittedKeepsRange(setup, l, req, key, effect, o, freed);
    if Recovers(setup, req, key, effect, o) {
      ReleasedStands(m, l.cap, Resolve(req.serverID, o.before).server.id);
    }
    hide Connected, FailedStatus, Stands, Resolve;
    var admission, id := Admitted(setup, l, req, key, effect, o, freed), EffectiveID(req, o);
    if admission.Proceed? && HasTemplate(setup, req) {
      var base := admission.ledger;
      var kept := if Recovers(setup, req, key, effect, o) then m - {Resolve(req.serverID, o.before).server.id} else m;
      ConnectedStands(setup, kept, base, setup.templates[req.templateName].preStart, Prepared(setup, req), req, id, o, admission.calls);
    }
  }

  lemma StepStands(setup: Setup, physical: iset<string>, w: World, m: Promised, step: Step)
    requires Grounded(physical, w) && Possible(setup, physical, w, step) && SafeCapacity(w.issued, w.cell.ledger.cap)
    requires Stands(m, w.cell.ledger.cap)
    ensures var after := Stepped(setup, w, step).cell.ledger.cap;
            Stands(AfterStep(setup, w, m, step), after) && after.budget == w.cell.ledger.cap.budget
  {
    hide CreateSpec, Stands, Sound, Settles, Recovers, Frees, Resolve;
    match step
    case CreateStep(req, key, effect, o, freed) =>
      CreateStands(setup, m, w.cell.ledger, req, key, effect, o, freed);
    case RetireStep(id, _, _, _, _) =>
      ReleasedStands(m, w.cell.ledger.cap, id);
    case RecreateStep(a) =>
      if !Settles(w.cell, a.oldID, a.req) {
        NeverRecoversWithoutTokens(setup, a.req.replacement, a.o.create);
        CreateStands(setup, m, w.cell.ledger, a.req.replacement, "", "", a.o.create, None);
        var made := Replacing(setup, w.cell, a.req, a.o);
        ReleasedStands(AfterCreate(m, made), made.ledger.cap, a.oldID);
      }
  }

  // ---------- the sums ----------

  ghost function TotalOf(m: Promised): Promise {
    if m == map[] then Promise(0.0, 0)
    else
      var c :| c in m;
      var rest := TotalOf(m - {c});
      Promise(m[c].cpu + rest.cpu, m[c].bytes + rest.bytes)
  }

  lemma {:induction false} TotalsAgree(m: Promised, cap: Tracked)
    requires Stands(m, cap)
    ensures Total(cap.containers).cpu == TotalOf(m).cpu
    ensures Total(cap.containers).mem * 1073741824.0 == TotalOf(m).bytes as real
    decreases |m|
  {
    if m == map[] {
      assert cap.containers == map[];
    } else {
      var c :| c in m && TotalOf(m) == Promise(m[c].cpu + TotalOf(m - {c}).cpu, m[c].bytes + TotalOf(m - {c}).bytes);
      TotalRemove(cap.containers, c);
      TotalsAgree(m - {c}, cap.(containers := cap.containers - {c}));
    }
  }

  // All that is promised keeps to the budget: cores to cores, and bytes to GiB of 1073741824 bytes.
  ghost predicate WithinBudget(m: Promised, budget: Limits) {
    && (budget.cpu > 0.0 ==> TotalOf(m).cpu <= budget.cpu)
    && (budget.mem > 0.0 ==> TotalOf(m).bytes as real <= budget.mem * 1073741824.0)
  }

  lemma SoundIsWithinBudget(m: Promised, cap: Tracked)
    requires Stands(m, cap) && Sound(cap)
    ensures WithinBudget(m, cap.budget)
  {
    TotalsAgree(m, cap);
  }

  // Over every run: exactly the containers that have been made and not destroyed have an entry, and
  // what Docker was asked to give them is within the budget, core by core and byte by byte.
  lemma {:induction false} PromisesStayWithinBudget(setup: Setup, physical: iset<string>, w: World, m: Promised, run: seq<Step>,
                                                    end: World)
    requires Grounded(physical, w) && Reaches(setup, w, run, end) && PossibleRun(setup, physical, w, run)
    requires SafeCapacity(w.issued, w.cell.ledger.cap) && forall step :: step in run ==> Sensible(setup, step)
    requires Stands(m, w.cell.ledger.cap)
    ensures var after := AfterRun(setup, w, m, run);
            Stands(after, end.cell.ledger.cap) && WithinBudget(after, w.cell.ledger.cap.budget)
    decreases |run|
  {
    hide Possible, GivenBy, CellAfter, Sensible, Stands, AfterStep, WithinBudget, Sound;
    if run == [] {
      SoundIsWithinBudget(m, w.cell.ledger.cap);
    } else {
      assert run[0] in run && forall step :: step in run[1..] ==> step in run;
      StepGrounded(setup, physical, w, run[0]);
      StepKeepsCapacity(setup, physical, w, run[0]);
      StepStands(setup, physical, w, m, run[0]);
      PromisesStayWithinBudget(setup, physical, Stepped(setup, w, run[0]), AfterStep(setup, w, m, run[0]), run[1..], end);
    }
  }
}
