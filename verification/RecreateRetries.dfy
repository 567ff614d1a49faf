// Retries of a recreate among everything else that a cell does.
module RecreateRetries {
  import opened Text
  import opened Ports
  import opened PortSafety
  import opened Docker
  import opened Creation
  import opened Recreate
  import opened RecreateRuns
  import opened Runs

  // The lookup of the replacement's name settles nothing, or leads to a failed runtime.
  predicate LookupFails(req: Request, o: Answers) {
    match Resolve(req.replacement.serverID, o.create.before)
    case Unclear => true
    case Absent => false
    case Present(server) => FailedStatus(server.status)
  }

  // A retry that comes to nothing: its lookup fails, or it finds c but cannot destroy the old container.
  predicate Vain(step: Step, oldID: string, req: Request, c: string) {
    && step.RecreateStep? && step.attempt.oldID == oldID && step.attempt.req == req
    && (LookupFails(req, step.attempt.o) || (FindsRunning(req, step.attempt.o, c) && DestroyFails(step.attempt.o.destroy)))
  }

  // Any other step, as long as it does not use the key and leaves c alone.
  predicate Elsewhere(setup: Setup, w: World, step: Step, req: Request, c: string) {
    (step.RecreateStep? ==> step.attempt.req.key != req.key) && c !in Touched(setup, step)
  }

  ghost predicate Interleaved(setup: Setup, w: World, run: seq<Step>, oldID: string, req: Request, c: string)
    decreases |run|
  {
    run != [] ==>
      && Ready(w.cell) && (Vain(run[0], oldID, req, c) || Elsewhere(setup, w, run[0], req, c))
      && Interleaved(setup, Stepped(setup, w, run[0]), run[1..], oldID, req, c)
  }

  // The run without the retries.
  function Others(run: seq<Step>, oldID: string, req: Request, c: string): seq<Step>
    decreases |run|
  {
    if run == [] then []
    else (if Vain(run[0], oldID, req, c) then [] else [run[0]]) + Others(run[1..], oldID, req, c)
  }

  // How many containers the retries ask Docker for.
  ghost function Asked(setup: Setup, w: World, run: seq<Step>, oldID: string, req: Request, c: string): nat
    decreases |run|
  {
    if run == [] || !Ready(w.cell) then 0
    else
      (if Vain(run[0], oldID, req, c) then CountCreates(Do(setup, w.cell, run[0].attempt).calls) else 0) +
      Asked(setup, Stepped(setup, w, run[0]), run[1..], oldID, req, c)
  }

  lemma FailedLookupMakesNothing(setup: Setup, l: Ledger, req: Request, o: Answers)
    requires l.ips.Valid() && req.replacement.serverID != "" && LookupFails(req, o)
    ensures var r := CreateSpec(setup, l, req.replacement, "", "", o.create, None);
            r.ledger == l && r.reply.Failed? && CountCreates(r.calls) == 0
  {
    hide Provisioned, FailedStatus, CountCreates;
    var id, before := req.replacement.serverID, o.create.before;
    NoCalls();
    CountCreatesLookup([], id, before);
    assert [] + LookupCalls(id, before) == LookupCalls(id, before);
  }

  lemma VainChangesNothing(setup: Setup, w: World, step: Step, oldID: string, req: Request, c: string)
    requires Ready(w.cell) && !Settles(w.cell, oldID, req) && Vain(step, oldID, req, c)
    ensures Stepped(setup, w, step) == w && CountCreates(Do(setup, w.cell, step.attempt).calls) == 0
  {
    var a := step.attempt;
    hide CreateSpec, FindsRunning, FailedStatus;
    if LookupFails(req, a.o) {
      FailedLookupMakesNothing(setup, w.cell.ledger, req, a.o);
    } else {
      RetryAdopts(setup, w.cell, oldID, req, a.o, c);
      CountCreatesAppend(Replacing(setup, w.cell, req, a.o).calls, Destroy(oldID));
    }
  }

  lemma ElsewhereLeavesKey(setup: Setup, w: World, step: Step, oldID: string, req: Request, c: string)
    requires Ready(w.cell) && !Settles(w.cell, oldID, req) && Elsewhere(setup, w, step, req, c)
    ensures !Settles(Stepped(setup, w, step).cell, oldID, req)
  {
    hide CreateSpec, Retired, WellFormed;
  }

  // However retries and other steps alternate: the retries leave no trace and ask for no container,
  // the other steps are as possible without them, and the key stays free.
  lemma {:induction false} RetriesLeaveNoTrace(setup: Setup, physical: iset<string>, w: World, run: seq<Step>, end: World,
                                               oldID: string, req: Request, c: string)
    requires Reaches(setup, w, run, end) && !Settles(w.cell, oldID, req) && Interleaved(setup, w, run, oldID, req, c)
    ensures Reaches(setup, w, Others(run, oldID, req, c), end)
    ensures PossibleRun(setup, physical, w, run) ==> PossibleRun(setup, physical, w, Others(run, oldID, req, c))
    ensures Asked(setup, w, run, oldID, req, c) == 0 && !Settles(end.cell, oldID, req)
    decreases |run|
  {
    hide Stepped, Possible, Settles, Vain, Elsewhere, Do, CountCreates;
    if run != [] {
      var next, others := Stepped(setup, w, run[0]), Others(run, oldID, req, c);
      if Vain(run[0], oldID, req, c) {
        VainChangesNothing(setup, w, run[0], oldID, req, c);
        assert others == Others(run[1..], oldID, req, c);
        RetriesLeaveNoTrace(setup, physical, next, run[1..], end, oldID, req, c);
      } else {
        ElsewhereLeavesKey(setup, w, run[0], oldID, req, c);
        RetriesLeaveNoTrace(setup, physical, next, run[1..], end, oldID, req, c);
        assert others[0] == run[0] && others[1..] == Others(run[1..], oldID, req, c);
      }
    }
  }

  // Through all of it c is spared.
  lemma {:induction false} InterleavingSpares(setup: Setup, w: World, run: seq<Step>, oldID: string, req: Request, c: string)
    requires Interleaved(setup, w, run, oldID, req, c)
    requires c != oldID && c != req.replacement.serverID && req.replacement.serverID != ""
    ensures Spares(setup, run, c)
    decreases |run|
  {
    hide Stepped, LookupFails, FindsRunning;
    if run != [] {
      InterleavingSpares(setup, Stepped(setup, w, run[0]), run[1..], oldID, req, c);
      assert run == [run[0]] + run[1..];
    }
  }

  // The first attempt has made c, but the old container is still there.
  ghost predicate MadeOnly(setup: Setup, w0: World, first: Attempt, w1: World, c: string) {
    && Ready(w0.cell) && !Settles(w0.cell, first.oldID, first.req) && DestroyFails(first.o.destroy)
    && Replacing(setup, w0.cell, first.req, first.o).reply.Created?
    && Replacing(setup, w0.cell, first.req, first.o).reply.server.id == c
    && w1 == Stepped(setup, w0, RecreateStep(first))
  }

  // The last attempt has found c and destroyed the old container.
  ghost predicate Finished(setup: Setup, w2: World, last: Attempt, end: World, c: string) {
    && Ready(w2.cell) && end == Stepped(setup, w2, RecreateStep(last))
    && FindsRunning(last.req, last.o, c) && !DestroyFails(last.o.destroy)
  }

  // Exactly what c got from the first attempt is its, and the old container has no port.
  ghost predicate PortsHandedOver(before: PoolSet, after: PoolSet, c: string, oldID: string) {
    (forall p :: Owns(after, p, c) <==> Owns(before, p, c)) && forall p :: !Owns(after, p, oldID)
  }

  lemma HandedOverSinceThen(w1: PoolSet, w2: PoolSet, end: PoolSet, c: string, oldID: string)
    requires (forall p :: Owns(w2, p, c) <==> Owns(w1, p, c)) && PortsHandedOver(w2, end, c, oldID)
    ensures PortsHandedOver(w1, end, c, oldID)
  {
  }

  lemma LogicalNotEmpty(setup: Setup, w0: World, first: Attempt, w1: World, c: string)
    requires MadeOnly(setup, w0, first, w1, c)
    ensures first.req.replacement.serverID != ""
  {
  }

  lemma AfterFirst(setup: Setup, w0: World, first: Attempt, w1: World, c: string)
    requires MadeOnly(setup, w0, first, w1, c)
    ensures c in w1.issued && !Settles(w1.cell, first.oldID, first.req)
  {
    hide CreateSpec, WellFormed;
  }

  lemma AfterLast(setup: Setup, w2: World, last: Attempt, end: World, c: string)
    requires Finished(setup, w2, last, end, c) && !Settles(w2.cell, last.oldID, last.req) && c != last.oldID
    ensures CountCreates(Do(setup, w2.cell, last).calls) == 0
    ensures Recorded(w2.cell, end.cell, Do(setup, w2.cell, last).reply, last, c)
    ensures PortsHandedOver(w2.cell.ledger.ports, end.cell.ledger.ports, c, last.oldID)
  {
    LastAttempt(setup, w2.cell, last, c);
    hide Do, CountCreates, FindsRunning, Settles;
    ReleaseOwnership(w2.cell.ledger.ports, last.oldID);
  }

  // An attempt makes replacement c but cannot destroy the old container. Retries that come to nothing
  // follow, among any other steps that leave key and c alone, and at last one finds c and destroys
  // the old container. Then the other steps alone would have led to the same world but for the old
  // container, whose shares that last retry gives up; the receipt is for c; the retries asked for no
  // container; and, if Docker's IDs are new, c has exactly the ports that it was made with.
  lemma RetriesConvergeAmongOthers(setup: Setup, physical: iset<string>, w0: World, first: Attempt, w1: World, run: seq<Step>,
                                   w2: World, last: Attempt, end: World, c: string)
    requires MadeOnly(setup, w0, first, w1, c) && c != first.oldID && c != first.req.replacement.serverID
    requires Reaches(setup, w1, run, w2) && Interleaved(setup, w1, run, first.oldID, first.req, c)
    requires last.oldID == first.oldID && last.req == first.req && Finished(setup, w2, last, end, c)
    ensures Reaches(setup, w1, Others(run, first.oldID, first.req, c), w2)
    ensures PossibleRun(setup, physical, w1, run) ==>
              PossibleRun(setup, physical, w1, Others(run, first.oldID, first.req, c))
    ensures Asked(setup, w1, run, first.oldID, first.req, c) == 0 && CountCreates(Do(setup, w2.cell, last).calls) == 0
    ensures Recorded(w2.cell, end.cell, Do(setup, w2.cell, last).reply, last, c)
    ensures Grounded(physical, w1) && PossibleRun(setup, physical, w1, run) ==>
              PortsHandedOver(w1.cell.ledger.ports, end.cell.ledger.ports, c, first.oldID)
  {
    AfterFirst(setup, w0, first, w1, c);
    LogicalNotEmpty(setup, w0, first, w1, c);
    hide MadeOnly, Finished, Reaches, Interleaved, Spares, PossibleRun, Settles, Do, CountCreates, PortsHandedOver, Recorded, Grounded;
    RetriesLeaveNoTrace(setup, physical, w1, run, w2, first.oldID, first.req, c);
    InterleavingSpares(setup, w1, run, first.oldID, first.req, c);
    AfterLast(setup, w2, last, end, c);
    if Grounded(physical, w1) && PossibleRun(setup, physical, w1, run) {
      SparedContainersKeepTheirPorts(setup, physical, w1, run, w2, c);
      HandedOverSinceThen(w1.cell.ledger.ports, w2.cell.ledger.ports, end.cell.ledger.ports, c, first.oldID);
    }
  }
}
