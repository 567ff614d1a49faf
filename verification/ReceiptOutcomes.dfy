// What one attempt at a key without a receipt does, told by the request and by what the outside does
// to it alone: which commands run, what is answered, and when a receipt may be stored.
module ReceiptOutcomes {
  import opened Text
  import opened Receipts
  import opened ReceiptRuns

  // ---------- how an attempt ends ----------

  // Nothing stands in the way of the commands.
  predicate Starts(req: Request, o: Outcome) {
    !o.readFails && o.lookup == None && req.plan.Some?
  }

  // Some command of the plan fails.
  predicate Stumbles(req: Request, o: Outcome)
    requires req.plan.Some?
  {
    o.failing.Some? && o.failing.value.0 < |req.plan.value|
  }

  // The whole plan runs and a receipt reaches its temporary file.
  predicate Writes(req: Request, o: Outcome) {
    && Starts(req, o) && !Stumbles(req, o)
    && o.response.Some? && !o.mkdirFails && !o.openFails && o.write.Written?
  }

  // The commands that run if the process lives on: up to the one that fails, that one included.
  function Work(req: Request, o: Outcome): seq<Command> {
    if !Starts(req, o) then []
    else if Stumbles(req, o) then req.plan.value[..o.failing.value.0 + 1]
    else req.plan.value
  }

  function Verdict(req: Request, o: Outcome): Answer {
    if o.readFails then Answer(500, "")
    else if o.lookup.Some? then Answer(o.lookup.value, "")
    else if req.plan.None? then Answer(422, "")
    else if Stumbles(req, o) then Answer(o.failing.value.1, "")
    else if Writes(req, o) && o.rename.Renamed? then Answer(200, o.response.value)
    else Answer(500, "")
  }

  // The receipt is stored exactly when it was written and moved.
  predicate StoresRight(files: Files, req: Request, o: Outcome) {
    && (FinalPath(req) in files <==> Writes(req, o) && (o.rename.Renamed? || o.rename.moved))
    && (FinalPath(req) in files ==> files[FinalPath(req)] == Full(ReceiptOf(req, o.response.value)))
  }

  // ---------- every step on the way there ----------

  // Through the plan up to, but without, the i-th command.
  predicate RunTo(s: State, req: Request, o: Outcome, i: nat) {
    && Starts(req, o) && s.answer == None && FinalPath(req) !in s.files
    && i <= |req.plan.value| && s.ran == req.plan.value[..i] && (o.failing.Some? ==> i <= o.failing.value.0)
  }

  predicate RunWhole(s: State, req: Request, o: Outcome, response: Wire) {
    Starts(req, o) && !Stumbles(req, o) && RunTo(s, req, o, |req.plan.value|) && o.response == Some(response)
  }

  predicate OnTheWay(s: State, req: Request, o: Outcome) {
    match s.stage
    case Loading => s.answer == None && s.ran == [] && FinalPath(req) !in s.files
    case Looking => s.answer == None && s.ran == [] && FinalPath(req) !in s.files && !o.readFails
    case Running(i) => RunTo(s, req, o, i)
    case MakingDirectory(response) => RunWhole(s, req, o, response)
    case Opening(response) => RunWhole(s, req, o, response) && !o.mkdirFails
    case Writing(response) => RunWhole(s, req, o, response) && !o.mkdirFails && !o.openFails
    case Renaming(response) =>
      && RunWhole(s, req, o, response) && Writes(req, o)
      && TemporaryPath(req) in s.files && s.files[TemporaryPath(req)] == Full(ReceiptOf(req, response))
    case Answering(a) => s.answer == None && a == Verdict(req, o) && s.ran == Work(req, o) && StoresRight(s.files, req, o)
    case Done => s.answer == Some(Verdict(req, o)) && s.ran == Work(req, o) && StoresRight(s.files, req, o)
  }

  // The steps that are still to come, at most.
  function Ahead(s: State, req: Request): nat {
    match s.stage
    case Loading => (if req.plan.Some? then |req.plan.value| else 0) + 8
    case Looking => (if req.plan.Some? then |req.plan.value| else 0) + 7
    case Running(i) => (if req.plan.Some? && i <= |req.plan.value| then |req.plan.value| - i else 0) + 6
    case MakingDirectory(_) => 5
    case Opening(_) => 4
    case Writing(_) => 3
    case Renaming(_) => 2
    case Answering(_) => 1
    case Done => 0
  }

  lemma CommandOnTheWay(s: State, req: Request, o: Outcome)
    requires OnTheWay(s, req, o) && s.stage.Running?
    ensures OnTheWay(Next(s, req, o), req, o) && Ahead(Next(s, req, o), req) < Ahead(s, req)
  {
    hide ReceiptOf, Matches;
    var i, plan := s.stage.next, req.plan.value;
    if i < |plan| {
      assert plan[..i + 1] == plan[..i] + [plan[i]];
    } else {
      assert plan[..|plan|] == plan;
    }
  }

  lemma WholePlanRan(s: State, req: Request, o: Outcome, response: Wire)
    requires RunWhole(s, req, o, response)
    ensures s.ran == Work(req, o) && s.ran == req.plan.value
  {
    assert req.plan.value[..|req.plan.value|] == req.plan.value;
  }

  lemma StoringOnTheWay(s: State, req: Request, o: Outcome)
    requires OnTheWay(s, req, o) && (s.stage.Opening? || s.stage.Writing? || s.stage.Renaming?)
    ensures OnTheWay(Next(s, req, o), req, o) && Ahead(Next(s, req, o), req) < Ahead(s, req)
  {
    WholePlanRan(s, req, o, s.stage.response);
    hide ReceiptOf, Matches, Work;
  }

  lemma StepOnTheWay(s: State, req: Request, o: Outcome)
    requires OnTheWay(s, req, o)
    ensures OnTheWay(Next(s, req, o), req, o)
    ensures s.stage.Done? || Ahead(Next(s, req, o), req) < Ahead(s, req)
  {
    match s.stage
    case Running(_) => CommandOnTheWay(s, req, o);
    case MakingDirectory(response) => WholePlanRan(s, req, o, response);
    case Opening(_) => StoringOnTheWay(s, req, o);
    case Writing(_) => StoringOnTheWay(s, req, o);
    case Renaming(_) => StoringOnTheWay(s, req, o);
    case _ =>
  }

  lemma {:induction false} LiveOnTheWay(s: State, req: Request, o: Outcome, steps: nat)
    requires OnTheWay(s, req, o)
    ensures OnTheWay(Live(s, req, o, steps), req, o)
    ensures steps >= Ahead(s, req) ==> Live(s, req, o, steps).stage.Done?
    decreases steps
  {
    if s.stage.Done? {
      DoneStays(s, req, o, steps);
      return;
    }
    hide Next, OnTheWay;
    if steps > 0 {
      StepOnTheWay(s, req, o);
      LiveOnTheWay(Next(s, req, o), req, o, steps - 1);
    } else {
      assert Ahead(s, req) > 0;
    }
  }

  lemma PlanRunsInOrder(s: State, req: Request, o: Outcome)
    requires OnTheWay(s, req, o)
    ensures s.ran <= Work(req, o)
  {
  }

  // ---------- what an attempt does ----------

  // Whenever the process dies: the commands that ran are a beginning of the plan, and stop at a
  // command that fails. An answer of success, and a receipt, come only after the whole plan ran and
  // no command of it failed; a receipt is for the response of this very run.
  lemma ReceiptsFollowTheWork(files: Files, a: Attempt)
    requires FinalPath(a.req) !in files
    ensures var s := Outcomes(files, a);
            && (if a.req.plan.None? then s.ran == [] else s.ran <= a.req.plan.value)
            && (a.o.failing.Some? && a.req.plan.Some? && a.o.failing.value.0 < |a.req.plan.value| ==>
                  && s.ran <= a.req.plan.value[..a.o.failing.value.0 + 1]
                  && FinalPath(a.req) !in s.files
                  && (s.answer.Some? && !a.o.readFails && a.o.lookup == None ==> s.answer == Some(Answer(a.o.failing.value.1, ""))))
            && (FinalPath(a.req) in s.files || (exists body :: s.answer == Some(Answer(200, body))) ==>
                  && a.req.plan == Some(s.ran) && (a.o.failing.Some? ==> a.o.failing.value.0 >= |s.ran|)
                  && a.o.response.Some? && FinalPath(a.req) in s.files
                  && s.files[FinalPath(a.req)] == Full(ReceiptOf(a.req, a.o.response.value)))
  {
    hide Live;
    LiveOnTheWay(Begin(files), a.req, a.o, a.steps);
    PlanRunsInOrder(Outcomes(files, a), a.req, a.o);
  }

  // An attempt that lives long enough answers, and success exactly when nothing at all goes wrong.
  lemma SucceedsIff(files: Files, a: Attempt)
    requires FinalPath(a.req) !in files
    requires a.steps >= 8 + if a.req.plan.Some? then |a.req.plan.value| else 0
    ensures var s := Outcomes(files, a);
            && s.answer.Some?
            && (s.answer.value.status == 200 <==>
                  && !a.o.readFails && a.o.lookup == None && a.req.plan.Some?
                  && (a.o.failing.Some? ==> a.o.failing.value.0 >= |a.req.plan.value|)
                  && a.o.response.Some? && !a.o.mkdirFails && !a.o.openFails && a.o.write == Written && a.o.rename == Renamed)
            && (s.answer.value.status == 200 ==> s.ran == a.req.plan.value && s.answer.value.body == a.o.response.value)
  {
    hide Live;
    LiveOnTheWay(Begin(files), a.req, a.o, a.steps);
  }

  // The other answers: what fails first gives the status, and nothing of it is told in the body.
  lemma RefusalsTell(files: Files, a: Attempt)
    requires FinalPath(a.req) !in files && Outcomes(files, a).answer.Some?
    ensures var answer := Outcomes(files, a).answer.value;
            && (a.o.readFails ==> answer == Answer(500, ""))
            && (!a.o.readFails && a.o.lookup.Some? ==> answer == Answer(a.o.lookup.value, ""))
            && (!a.o.readFails && a.o.lookup.None? && a.req.plan.None? ==> answer == Answer(422, ""))
            && (answer.status != 200 ==> answer.body == "")
  {
    hide Live;
    LiveOnTheWay(Begin(files), a.req, a.o, a.steps);
  }

  // ---------- what is stored, where, and what it matches ----------

  // The receipts of exec-v2 lie apart from those of the other routes; a key has one final name among
  // its own, and a temporary name for each effect.
  lemma PlacesIff(a: Request, b: Request)
    ensures FinalPath(a) == FinalPath(b) <==> a.key == b.key && (a.work.Exec? <==> b.work.Exec?)
    ensures TemporaryPath(a) == TemporaryPath(b) <==> FinalPath(a) == FinalPath(b) && a.effect == b.effect
    ensures FinalPath(a) != TemporaryPath(b) && (FinalPath(a).dir.ExecReceipts? <==> a.work.Exec?)
  {
  }

  // What a receipt that an attempt stores says, route by route.
  lemma StoredReceiptTells(files: Files, a: Attempt)
    requires FinalPath(a.req) !in files && FinalPath(a.req) in Outcomes(files, a).files
    ensures var stored := Outcomes(files, a).files[FinalPath(a.req)];
            && stored.Full? && stored.receipt.key == a.req.key && stored.receipt.effect == a.req.effect
            && Some(stored.receipt.response) == a.o.response
            && stored.receipt.digest == Preimage(a.req.work, a.req.effect)
            && match a.req.work {
                 case Lifecycle(action, container, _) => stored.receipt.binding == ByAction(action, container)
                 case Access(container, _) => stored.receipt.binding == ByAction("access-apply", container)
                 case Transfer(direction, container, _) => stored.receipt.binding == ByAction("world-" + direction, container)
                 case Exec(server, node, container, _) => stored.receipt.binding == ByServer(server, node, container)
               }
  {
    hide Live;
    LiveOnTheWay(Begin(files), a.req, a.o, a.steps);
  }

  // A stored receipt answers a request exactly when key, effect and work are those it was stored
  // for, the server and node of an exec-v2 request included.
  lemma MatchesIff(stored: Request, req: Request, response: Wire)
    requires Registered(stored.work, stored.effect) && Registered(req.work, req.effect)
    ensures Matches(ReceiptOf(stored, response), req) <==>
            stored.key == req.key && stored.effect == req.effect && stored.work == req.work
  {
    PreimageInjective(stored.work, stored.effect, req.work, req.effect);
    hide Preimage;
  }
}
