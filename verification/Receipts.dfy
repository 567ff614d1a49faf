// The durable idempotency receipts of the fleet routes of pulp-cell: lifecycle, access and world
// transfer share one directory, exec-v2 has its own. All follow one protocol: load the receipt,
// check, run the privileged commands, write a temporary file, rename it.
module Receipts {
  import opened Text

  // A non-empty encoding.
  type Wire = s: string | s != "" witness "{}"

  // ---------- requests ----------

  // What a request asks for, by route. wire is the encoding of the decoded request.
  datatype Work =
    | Lifecycle(action: string, container: string, wire: string)
    | Access(container: string, wire: string)
    | Transfer(direction: string, container: string, wire: string)
    | Exec(server: string, node: string, container: string, wire: string)

  datatype Command = ExecIn(container: string, args: seq<string>) | Restart(container: string)

  // plan is what the request compiles to, unless it is refused as not allowed.
  datatype Request = Request(key: string, effect: string, work: Work, plan: Option<seq<Command>>)

  const NUL := "\0"

  // The bytes that are hashed.
  function Preimage(work: Work, effect: string): string {
    match work
    case Lifecycle(action, container, wire) => action + NUL + container + NUL + wire
    case Access(container, wire) => "access-apply" + NUL + container + NUL + wire
    case Transfer(direction, container, wire) => "world-transfer" + NUL + direction + NUL + container + NUL + wire
    case Exec(_, _, container, wire) => "exec-v2" + NUL + container + NUL + effect + NUL + wire
  }

  // ---------- receipts and files ----------

  // What a receipt names beside its digest.
  datatype Binding = ByAction(action: string, container: string) | ByServer(server: string, node: string, container: string)

  function BindingOf(work: Work): Binding {
    match work
    case Lifecycle(action, container, _) => ByAction(action, container)
    case Access(container, _) => ByAction("access-apply", container)
    case Transfer(direction, container, _) => ByAction("world-" + direction, container)
    case Exec(server, node, container, _) => ByServer(server, node, container)
  }

  // The hash is taken to be injective: a digest is its preimage.
  datatype Receipt = Receipt(key: string, effect: string, binding: Binding, digest: string, response: Wire)

  datatype Directory = LifecycleReceipts | ExecReceipts

  // File names are made of hashes of the key and of the effect ID, taken to be injective.
  datatype Path = Final(dir: Directory, key: string) | Temporary(dir: Directory, key: string, effect: string)

  datatype Content = Torn | Full(receipt: Receipt)

  type Files = map<Path, Content>

  function DirectoryOf(work: Work): Directory {
    if work.Exec? then ExecReceipts else LifecycleReceipts
  }

  function FinalPath(req: Request): Path {
    Final(DirectoryOf(req.work), req.key)
  }

  function TemporaryPath(req: Request): Path {
    Temporary(DirectoryOf(req.work), req.key, req.effect)
  }

  function ReceiptOf(req: Request, response: Wire): Receipt {
    Receipt(req.key, req.effect, BindingOf(req.work), Preimage(req.work, req.effect), response)
  }

  predicate Matches(r: Receipt, req: Request) {
    && r.key == req.key && r.effect == req.effect
    && r.binding == BindingOf(req.work) && r.digest == Preimage(req.work, req.effect)
  }

  // ---------- what the outside does to one attempt ----------

  datatype WriteOutcome = Written | NotWritten

  // A rename that reports an error may have happened all the same.
  datatype RenameOutcome = Renamed | RenameError(moved: bool)

  type ErrorStatus = s: int | s >= 400 witness 400

  // lookup: the status with which the container lookups refuse, if they do. failing: the command
  // that fails and the status that follows.
  datatype Outcome = Outcome(
    readFails: bool, lookup: Option<ErrorStatus>, failing: Option<(nat, ErrorStatus)>, response: Option<Wire>,
    mkdirFails: bool, openFails: bool, write: WriteOutcome, rename: RenameOutcome)

  // ---------- the protocol, one step at a time ----------

  datatype Answer = Answer(status: int, body: string)

  datatype Stage =
    | Loading
    | Looking
    | Running(next: nat)
    | MakingDirectory(response: Wire)
    | Opening(response: Wire)
    | Writing(response: Wire)
    | Renaming(response: Wire)
    | Answering(answer: Answer)
    | Done

  datatype State = State(files: Files, stage: Stage, ran: seq<Command>, answer: Option<Answer>)

  function Begin(files: Files): State {
    State(files, Loading, [], None)
  }

  function Refusal(status: ErrorStatus): Stage {
    Answering(Answer(status, ""))
  }

  function AfterLoad(files: Files, req: Request, o: Outcome): Stage {
    if o.readFails then Refusal(500)
    else if FinalPath(req) !in files then Looking
    else
      match files[FinalPath(req)]
      case Torn => Refusal(500)
      case Full(r) => if Matches(r, req) then Answering(Answer(200, r.response)) else Refusal(409)
  }

  function AfterLookup(req: Request, o: Outcome): Stage {
    if o.lookup.Some? then Refusal(o.lookup.value)
    else if req.plan.None? then Refusal(422)
    else Running(0)
  }

  predicate Fails(o: Outcome, i: nat) {
    o.failing.Some? && o.failing.value.0 == i
  }

  function AfterCommand(req: Request, o: Outcome, i: nat): Stage {
    if Fails(o, i) then Refusal(o.failing.value.1) else Running(i + 1)
  }

  function AfterRun(o: Outcome): Stage {
    if o.response.None? then Refusal(500) else MakingDirectory(o.response.value)
  }

  function Moved(files: Files, req: Request): Files {
    if TemporaryPath(req) in files then (files - {TemporaryPath(req)})[FinalPath(req) := files[TemporaryPath(req)]] else files
  }

  function Next(s: State, req: Request, o: Outcome): State {
    match s.stage
    case Loading => s.(stage := AfterLoad(s.files, req, o))
    case Looking => s.(stage := AfterLookup(req, o))
    case Running(i) =>
      if req.plan.None? || i >= |req.plan.value| then s.(stage := AfterRun(o))
      else s.(ran := s.ran + [req.plan.value[i]], stage := AfterCommand(req, o, i))
    case MakingDirectory(response) => s.(stage := if o.mkdirFails then Refusal(500) else Opening(response))
    case Opening(response) =>
      if o.openFails then s.(stage := Refusal(500))
      else s.(files := s.files[TemporaryPath(req) := Torn], stage := Writing(response))
    case Writing(response) =>
      if o.write.NotWritten? then s.(stage := Refusal(500))
      else s.(files := s.files[TemporaryPath(req) := Full(ReceiptOf(req, response))], stage := Renaming(response))
    case Renaming(response) =>
      if o.rename.Renamed? then s.(files := Moved(s.files, req), stage := Answering(Answer(200, response)))
      else s.(files := if o.rename.moved then Moved(s.files, req) else s.files, stage := Refusal(500))
    case Answering(answer) => s.(answer := Some(answer), stage := Done)
    case Done => s
  }

  // A process that lives for that many steps.
  function Live(s: State, req: Request, o: Outcome, steps: nat): State
    decreases steps
  {
    if steps == 0 then s else Live(Next(s, req, o), req, o, steps - 1)
  }

  // ---------- the handlers ----------

  datatype Loaded = Unavailable | NotFound | Found(receipt: Receipt)

  // Whatever is found under a final name is a complete receipt for the key of that name.
  predicate FinalsComplete(files: Files) {
    forall p :: p in files && p.Final? ==> files[p].Full? && files[p].receipt.key == p.key
  }

  function LoadedFrom(files: Files, path: Path, readFails: bool): Loaded {
    if readFails then Unavailable
    else if path !in files then NotFound
    else if files[path].Torn? then Unavailable
    else Found(files[path].receipt)
  }

  // What is left of an attempt: files, the commands it ran, and the answer if it came to that.
  predicate Ended(s: State, files: Files, answer: Option<Answer>, ran: seq<Command>) {
    s.files == files && s.answer == answer && s.ran == ran
  }

  lemma {:induction false} DoneStays(s: State, req: Request, o: Outcome, steps: nat)
    requires s.stage.Done?
    ensures Live(s, req, o, steps) == s
  {
    if steps > 0 {
      DoneStays(s, req, o, steps - 1);
    }
  }

  // An answer is delivered if the process lives for one more step.
  function Delivered(files: Files, a: Answer, ran: seq<Command>, req: Request, o: Outcome, left: nat): (answer: Option<Answer>)
    ensures Ended(Live(State(files, Answering(a), ran, None), req, o, left), files, answer, ran)
  {
    if left > 0 then
      DoneStays(State(files, Done, ran, Some(a)), req, o, left - 1);
      Some(a)
    else None
  }

  class ReceiptRoutes {
    var files: Files

    constructor (files: Files)
      ensures this.files == files
    {
      this.files := files;
    }

    method Load(path: Path, readFails: bool) returns (r: Loaded)
      ensures r == LoadedFrom(files, path, readFails)
      ensures FinalsComplete(files) && path.Final? ==>
                && (r.Unavailable? <==> readFails)
                && (r.Found? ==> path in files && r.receipt.key == path.key)
    {
      if readFails {
        return Unavailable;
      }
      if path !in files {
        return NotFound;
      }
      match files[path]
      case Torn => r := Unavailable;
      case Full(receipt) => r := Found(receipt);
    }

    // Runs the commands in order up to the first that fails, for as long as the process lives.
    method RunCommands(req: Request, o: Outcome, steps: nat) returns (ran: seq<Command>, failed: Option<ErrorStatus>, left: nat)
      requires req.plan.Some?
      ensures Live(State(files, Running(0), [], None), req, o, steps) ==
              Live(State(files, if failed.Some? then Refusal(failed.value) else Running(|ran|), ran, None), req, o, left)
      ensures left > 0 && failed.None? ==> |ran| == |req.plan.value|
    {
      ran, failed, left := [], None, steps;
      var plan := req.plan.value;
      while |ran| < |plan| && left > 0
        invariant |ran| <= |plan|
        invariant Live(State(files, Running(0), [], None), req, o, steps) ==
                  Live(State(files, Running(|ran|), ran, None), req, o, left)
        decreases left
      {
        var i := |ran|;
        ran, left := ran + [plan[i]], left - 1;
        if Fails(o, i) {
          return ran, Some(o.failing.value.1), left;
        }
      }
    }

    // Writes a temporary file and renames it; stage is where the process stands at the end.
    method Store(req: Request, o: Outcome, response: Wire, steps: nat, ghost ran: seq<Command>)
      returns (ok: bool, left: nat, ghost stage: Stage)
      modifies this
      ensures Live(State(old(files), MakingDirectory(response), ran, None), req, o, steps) ==
              Live(State(files, stage, ran, None), req, o, left)
      ensures left > 0 ==> stage == if ok then Answering(Answer(200, response)) else Refusal(500)
    {
      ok, left, stage := false, steps, MakingDirectory(response);
      ghost var end := Live(State(files, stage, ran, None), req, o, steps);
      if left == 0 {
        return;
      }
      left, stage := left - 1, if o.mkdirFails then Refusal(500) else Opening(response);
      assert end == Live(State(files, stage, ran, None), req, o, left);
      if o.mkdirFails || left == 0 {
        return;
      }
      left, stage := left - 1, if o.openFails then Refusal(500) else Writing(response);
      if o.openFails {
        return;
      }
      var temp := TemporaryPath(req);
      files := files[temp := Torn];
      assert end == Live(State(files, stage, ran, None), req, o, left);
      if left == 0 {
        return;
      }
      left, stage := left - 1, if o.write.Written? then Renaming(response) else Refusal(500);
      if o.write.NotWritten? {
        return;
      }
      files := files[temp := Full(ReceiptOf(req, response))];
      assert end == Live(State(files, stage, ran, None), req, o, left);
      if left == 0 {
        return;
      }
      left := left - 1;
      ok := o.rename.Renamed?;
      stage := if ok then Answering(Answer(200, response)) else Refusal(500);
      if ok || o.rename.moved {
        files := (files - {temp})[FinalPath(req) := files[temp]];
      }
    }

    // From the lookups on: the privileged work, and the receipt for it.
    method Perform(req: Request, o: Outcome, steps: nat)
      returns (answer: Option<Answer>, ran: seq<Command>)
      modifies this
      ensures Ended(Live(State(old(files), Looking, [], None), req, o, steps), files, answer, ran)
    {
      ran := [];
      if steps == 0 {
        return None, ran;
      }
      var left := steps - 1;
      if o.lookup.Some? {
        return Delivered(files, Answer(o.lookup.value, ""), ran, req, o, left), ran;
      }
      if req.plan.None? {
        return Delivered(files, Answer(422, ""), ran, req, o, left), ran;
      }
      var failed;
      ran, failed, left := RunCommands(req, o, left);
      if failed.Some? {
        return Delivered(files, Answer(failed.value, ""), ran, req, o, left), ran;
      }
      if left == 0 {
        return None, ran;
      }
      left := left - 1;
      if o.response.None? {
        return Delivered(files, Answer(500, ""), ran, req, o, left), ran;
      }
      var ok;
      ghost var stage;
      ok, left, stage := Store(req, o, o.response.value, left, ran);
      answer := if left == 0 then None
                else Delivered(files, if ok then Answer(200, o.response.value) else Answer(500, ""), ran, req, o, left);
    }

    method Handle(req: Request, o: Outcome, steps: nat) returns (answer: Option<Answer>, ran: seq<Command>)
      modifies this
      ensures var end := Live(Begin(old(files)), req, o, steps);
              files == end.files && answer == end.answer && ran == end.ran
    {
      if steps == 0 {
        return None, [];
      }
      var loaded := Load(FinalPath(req), o.readFails);
      match loaded
      case Unavailable => answer, ran := Delivered(files, Answer(500, ""), [], req, o, steps - 1), [];
      case Found(r) =>
        var a := if Matches(r, req) then Answer(200, r.response) else Answer(409, "");
        answer, ran := Delivered(files, a, [], req, o, steps - 1), [];
      case NotFound => answer, ran := Perform(req, o, steps - 1);
    }
  }
}
