// What the receipt protocol promises over any run of attempts, each of which may die between any
// two of its steps.
module ReceiptRuns {
  import opened Text
  import opened Tokens
  import opened Receipts

  // ---------- digests ----------

  const LIFECYCLE_ACTIONS := {"reconfigure", "suspend", "resume", "restart", "regenerate", "config-apply"}
  const DIRECTIONS := {"restore", "upload-apply"}

  function ContainerOf(work: Work): string {
    work.container
  }

  // A request of a registered route whose identities passed the checks: they hold no NUL.
  predicate Registered(work: Work, effect: string) {
    && '\0' !in ContainerOf(work) && '\0' !in effect
    && (work.Lifecycle? ==> work.action in LIFECYCLE_ACTIONS)
    && (work.Transfer? ==> work.direction in DIRECTIONS)
  }

  // The checks of the routes see to that: container and effect identities that pass hold no control
  // character.
  lemma CheckedIsRegistered(work: Work, effect: string)
    requires ValidIdentity(ContainerOf(work)) && ValidEffectIdentity(effect)
    requires (work.Lifecycle? ==> work.action in LIFECYCLE_ACTIONS) && (work.Transfer? ==> work.direction in DIRECTIONS)
    ensures Registered(work, effect)
  {
    assert IsControl('\0');
  }

  // The preimage as a first word and the rest.
  function FirstWord(work: Work): string {
    match work
    case Lifecycle(action, _, _) => action
    case Access(_, _) => "access-apply"
    case Transfer(_, _, _) => "world-transfer"
    case Exec(_, _, _, _) => "exec-v2"
  }

  function Rest(work: Work, effect: string): string {
    match work
    case Lifecycle(_, container, wire) => container + NUL + wire
    case Access(container, wire) => container + NUL + wire
    case Transfer(direction, container, wire) => direction + NUL + (container + NUL + wire)
    case Exec(_, _, container, wire) => container + NUL + (effect + NUL + wire)
  }

  lemma PreimageSplits(work: Work, effect: string)
    ensures Preimage(work, effect) == FirstWord(work) + NUL + Rest(work, effect)
  {
    match work
    case Lifecycle(action, container, wire) =>
      assert action + NUL + (container + NUL + wire) == action + NUL + container + NUL + wire;
    case Access(container, wire) =>
      assert "access-apply" + NUL + (container + NUL + wire) == "access-apply" + NUL + container + NUL + wire;
    case Transfer(direction, container, wire) =>
      assert "world-transfer" + NUL + (direction + NUL + (container + NUL + wire)) ==
             "world-transfer" + NUL + direction + NUL + container + NUL + wire;
    case Exec(_, _, container, wire) =>
      assert "exec-v2" + NUL + (container + NUL + (effect + NUL + wire)) ==
             "exec-v2" + NUL + container + NUL + effect + NUL + wire;
  }

  lemma FirstWordPlain(work: Work, effect: string)
    requires Registered(work, effect)
    ensures '\0' !in FirstWord(work)
    ensures FirstWord(work) != ""
    ensures match work
            case Lifecycle(_, _, _) => FirstWord(work)[0] in {'r', 's', 'c'}
            case Access(_, _) => FirstWord(work)[0] == 'a'
            case Transfer(_, _, _) => FirstWord(work)[0] == 'w'
            case Exec(_, _, _, _) => FirstWord(work)[0] == 'e'
  {
    assert '\0' !in "access-apply" && '\0' !in "world-transfer" && '\0' !in "exec-v2";
  }

  // What a digest determines: the route, the container and the request bytes, and for exec-v2 the
  // effect ID.
  predicate SameWork(a: Work, ea: string, b: Work, eb: string) {
    match (a, b)
    case (Exec(_, _, c1, w1), Exec(_, _, c2, w2)) => c1 == c2 && w1 == w2 && ea == eb
    case _ => a == b && !a.Exec?
  }

  lemma RestInjective(a: Work, ea: string, b: Work, eb: string)
    requires Registered(a, ea) && Registered(b, eb)
    requires FirstWord(a) == FirstWord(b) && Rest(a, ea) == Rest(b, eb)
    ensures SameWork(a, ea, b, eb)
  {
    FirstWordPlain(a, ea);
    FirstWordPlain(b, eb);
    match (a, b)
    case (Lifecycle(_, c1, w1), Lifecycle(_, c2, w2)) => SplitAtFirst(c1, w1, c2, w2, '\0');
    case (Access(c1, w1), Access(c2, w2)) => SplitAtFirst(c1, w1, c2, w2, '\0');
    case (Transfer(d1, c1, w1), Transfer(d2, c2, w2)) =>
      SplitAtFirst(d1, c1 + NUL + w1, d2, c2 + NUL + w2, '\0');
      SplitAtFirst(c1, w1, c2, w2, '\0');
    case (Exec(_, _, c1, w1), Exec(_, _, c2, w2)) =>
      SplitAtFirst(c1, ea + NUL + w1, c2, eb + NUL + w2, '\0');
      SplitAtFirst(ea, w1, eb, w2, '\0');
    case _ =>
  }

  lemma PreimageInjective(a: Work, ea: string, b: Work, eb: string)
    requires Registered(a, ea) && Registered(b, eb)
    ensures Preimage(a, ea) == Preimage(b, eb) <==> SameWork(a, ea, b, eb)
  {
    if Preimage(a, ea) == Preimage(b, eb) {
      PreimageSplits(a, ea);
      PreimageSplits(b, eb);
      FirstWordPlain(a, ea);
      FirstWordPlain(b, eb);
      SplitAtFirst(FirstWord(a), Rest(a, ea), FirstWord(b), Rest(b, eb), '\0');
      RestInjective(a, ea, b, eb);
    }
  }

  // A stored receipt with the digest of a request names that request's action and container: a key
  // that three routes share cannot be replayed across them.
  lemma DigestDeterminesBinding(stored: Request, req: Request, response: Wire)
    requires Registered(stored.work, stored.effect) && Registered(req.work, req.effect)
    requires ReceiptOf(stored, response).digest == Preimage(req.work, req.effect) && !req.work.Exec?
    ensures ReceiptOf(stored, response).binding == BindingOf(req.work) && stored.work == req.work
  {
    PreimageInjective(stored.work, stored.effect, req.work, req.effect);
  }

  // ---------- one attempt ----------

  predicate FinalsKept(before: Files, after: Files) {
    forall p :: p in before && p.Final? ==> p in after && after[p] == before[p]
  }

  // No final name but this one is new.
  predicate OnlyNewFinal(before: Files, after: Files, final: Path) {
    forall p :: p in after && p.Final? && p != final ==> p in before
  }

  // If this name is new, it holds a receipt of this request.
  ghost predicate NewFinalIsOf(before: Files, after: Files, req: Request) {
    FinalPath(req) in after && FinalPath(req) !in before ==>
      exists response: Wire :: after[FinalPath(req)] == Full(ReceiptOf(req, response))
  }

  predicate AtWork(stage: Stage) {
    !stage.Loading? && !stage.Answering? && !stage.Done?
  }

  predicate Succeeds(s: State, body: string) {
    s.answer == Some(Answer(200, body)) || s.stage == Answering(Answer(200, body))
  }

  predicate Records(files: Files, req: Request, body: string) {
    && FinalPath(req) in files && files[FinalPath(req)].Full?
    && Matches(files[FinalPath(req)].receipt, req) && files[FinalPath(req)].receipt.response == body
  }

  // What holds at every step of an attempt: it works on only while the key has no receipt, the
  // receipt is complete before it gets its final name, and success is announced only of what is
  // on record.
  ghost predicate Sane(s: State, req: Request) {
    && FinalsComplete(s.files)
    && (AtWork(s.stage) || s.stage.Loading? ==> s.answer == None)
    && (AtWork(s.stage) ==> FinalPath(req) !in s.files)
    && (s.stage.Renaming? ==>
          TemporaryPath(req) in s.files && s.files[TemporaryPath(req)] == Full(ReceiptOf(req, s.stage.response)))
    && (forall body :: Succeeds(s, body) ==> Records(s.files, req, body))
  }

  lemma RenameSane(s: State, req: Request, o: Outcome)
    requires Sane(s, req) && s.stage.Renaming?
    ensures var t := Next(s, req, o);
            && Sane(t, req) && FinalsKept(s.files, t.files) && OnlyNewFinal(s.files, t.files, FinalPath(req))
            && NewFinalIsOf(s.files, t.files, req)
  {
  }

  lemma WriteSane(s: State, req: Request, o: Outcome)
    requires Sane(s, req) && (s.stage.Opening? || s.stage.Writing?)
    ensures var t := Next(s, req, o);
            && Sane(t, req) && FinalsKept(s.files, t.files) && OnlyNewFinal(s.files, t.files, FinalPath(req))
            && NewFinalIsOf(s.files, t.files, req)
  {
  }

  lemma StepSane(s: State, req: Request, o: Outcome)
    requires Sane(s, req)
    ensures var t := Next(s, req, o);
            && Sane(t, req) && FinalsKept(s.files, t.files) && OnlyNewFinal(s.files, t.files, FinalPath(req))
            && NewFinalIsOf(s.files, t.files, req)
  {
    match s.stage
    case Renaming(_) => RenameSane(s, req, o);
    case Opening(_) => WriteSane(s, req, o);
    case Writing(_) => WriteSane(s, req, o);
    case _ => assert Next(s, req, o).files == s.files;
  }

  lemma {:induction false} LiveSane(s: State, req: Request, o: Outcome, steps: nat)
    requires Sane(s, req)
    ensures var t := Live(s, req, o, steps);
            && Sane(t, req) && FinalsKept(s.files, t.files) && OnlyNewFinal(s.files, t.files, FinalPath(req))
            && NewFinalIsOf(s.files, t.files, req)
    decreases steps
  {
    hide Next, Sane;
    if steps > 0 {
      StepSane(s, req, o);
      LiveSane(Next(s, req, o), req, o, steps - 1);
    }
  }

  // Once there is a receipt, no privileged command runs and no file changes; a matching request
  // gets the recorded bytes and any other a conflict, unless the file cannot be read or the process
  // dies first.
  lemma ReplayTouchesNothing(files: Files, req: Request, o: Outcome, steps: nat)
    requires FinalsComplete(files) && FinalPath(req) in files
    ensures var s := Live(Begin(files), req, o, steps);
            && s.files == files && s.ran == []
            && (s.answer == if steps < 2 then None
                            else if o.readFails then Some(Answer(500, ""))
                            else if Matches(files[FinalPath(req)].receipt, req)
                            then Some(Answer(200, files[FinalPath(req)].receipt.response))
                            else Some(Answer(409, "")))
  {
    var s1 := Next(Begin(files), req, o);
    if steps >= 2 {
      assert Live(Begin(files), req, o, steps) == Live(Next(s1, req, o), req, o, steps - 2);
      DoneStays(Next(s1, req, o), req, o, steps - 2);
    } else if steps == 1 {
      assert Live(Begin(files), req, o, 1) == Live(s1, req, o, 0);
    }
  }

  // ---------- runs ----------

  datatype Attempt = Attempt(req: Request, o: Outcome, steps: nat)

  function Outcomes(files: Files, a: Attempt): State {
    Live(Begin(files), a.req, a.o, a.steps)
  }

  // The files after a run of attempts, each of them begun after the one before ended or died.
  function After(files: Files, run: seq<Attempt>): Files
    decreases |run|
  {
    if run == [] then files else After(Outcomes(files, run[0]).files, run[1..])
  }

  lemma {:induction false} ReceiptsAreForever(files: Files, run: seq<Attempt>)
    requires FinalsComplete(files)
    ensures FinalsComplete(After(files, run)) && FinalsKept(files, After(files, run))
    decreases |run|
  {
    hide Live;
    if run != [] {
      LiveSane(Begin(files), run[0].req, run[0].o, run[0].steps);
      ReceiptsAreForever(Outcomes(files, run[0]).files, run[1..]);
    }
  }

  // The parts of a request that the check compares.
  predicate SameRequest(a: Request, b: Request) {
    && a.key == b.key && a.effect == b.effect && BindingOf(a.work) == BindingOf(b.work)
    && Preimage(a.work, a.effect) == Preimage(b.work, b.effect)
  }

  // An answer of success, in any run, is backed by a receipt for good: a later request of the same
  // key runs no command, changes no file, and gets the same bytes if it is the same request and a
  // conflict if it is not.
  lemma SuccessIsFinal(files: Files, first: Attempt, run: seq<Attempt>, later: Attempt, body: string)
    requires FinalsComplete(files)
    requires Outcomes(files, first).answer == Some(Answer(200, body))
    requires FinalPath(later.req) == FinalPath(first.req)
    ensures var s := Outcomes(After(Outcomes(files, first).files, run), later);
            && s.files == After(Outcomes(files, first).files, run) && s.ran == []
            && (s.answer.Some? && !later.o.readFails ==>
                  s.answer.value == if SameRequest(later.req, first.req) then Answer(200, body) else Answer(409, ""))
  {
    LiveSane(Begin(files), first.req, first.o, first.steps);
    var files1 := Outcomes(files, first).files;
    assert Records(files1, first.req, body);
    ReceiptsAreForever(files1, run);
    ReplayTouchesNothing(After(files1, run), later.req, later.o, later.steps);
  }

  lemma RunsOnlyUnrecorded(files: Files, a: Attempt)
    requires FinalsComplete(files) && Outcomes(files, a).ran != []
    ensures FinalPath(a.req) !in files
  {
    if FinalPath(a.req) in files {
      ReplayTouchesNothing(files, a.req, a.o, a.steps);
    }
  }

  // Whenever an attempt runs a privileged command, no attempt before it with the same key stored a
  // receipt or reported success: commands are repeated only after attempts that left none.
  lemma RepeatsFollowUnrecorded(files: Files, before: Attempt, run: seq<Attempt>, again: Attempt)
    requires FinalsComplete(files) && FinalPath(again.req) == FinalPath(before.req)
    requires Outcomes(After(Outcomes(files, before).files, run), again).ran != []
    ensures FinalPath(before.req) !in Outcomes(files, before).files
    ensures forall body :: Outcomes(files, before).answer != Some(Answer(200, body))
  {
    LiveSane(Begin(files), before.req, before.o, before.steps);
    var files1 := Outcomes(files, before).files;
    ReceiptsAreForever(files1, run);
    forall body
      ensures Outcomes(files, before).answer == Some(Answer(200, body)) ==> FinalPath(before.req) in files1
    {
      assert Succeeds(Outcomes(files, before), body) ==> Records(files1, before.req, body);
    }
    RunsOnlyUnrecorded(After(files1, run), again);
  }

  // A receipt for a key appears only through an attempt of that key.
  lemma {:induction false} ReceiptsComeFromAttempts(files: Files, run: seq<Attempt>, final: Path) returns (i: nat)
    requires FinalsComplete(files) && final.Final? && final !in files && final in After(files, run)
    ensures i < |run| && FinalPath(run[i].req) == final
    ensures final !in After(files, run[..i]) && final in After(files, run[..i + 1])
    decreases |run|
  {
    hide Live;
    LiveSane(Begin(files), run[0].req, run[0].o, run[0].steps);
    var files1 := Outcomes(files, run[0]).files;
    if final in files1 {
      i := 0;
      assert run[..1] == [run[0]] && run[..1][1..] == [];
      assert After(files, run[..1]) == After(files1, []);
    } else {
      var j := ReceiptsComeFromAttempts(files1, run[1..], final);
      i := j + 1;
      assert run[..i][0] == run[0] && run[..i][1..] == run[1..][..j];
      assert run[..i + 1][0] == run[0] && run[..i + 1][1..] == run[1..][..j + 1];
    }
  }

  lemma {:induction false} AfterJoins(files: Files, a: seq<Attempt>, b: seq<Attempt>)
    ensures After(files, a + b) == After(After(files, a), b)
    decreases |a|
  {
    if a == [] {
      assert a + b == b;
    } else {
      assert (a + b)[0] == a[0] && (a + b)[1..] == a[1..] + b;
      AfterJoins(Outcomes(files, a[0]).files, a[1..], b);
    }
  }

  lemma {:induction false} StoredByAttempt(files: Files, run: seq<Attempt>, final: Path) returns (i: nat, response: Wire)
    requires FinalsComplete(files) && final.Final? && final !in files && final in After(files, run)
    ensures i < |run| && FinalPath(run[i].req) == final && After(files, run)[final] == Full(ReceiptOf(run[i].req, response))
    decreases |run|
  {
    hide Live;
    var a := run[0];
    LiveSane(Begin(files), a.req, a.o, a.steps);
    var files1 := Outcomes(files, a).files;
    if final in files1 {
      i := 0;
      response :| files1[final] == Full(ReceiptOf(a.req, response));
      ReceiptsAreForever(files1, run[1..]);
    } else {
      var j;
      j, response := StoredByAttempt(files1, run[1..], final);
      i := j + 1;
    }
  }

  // In any run from an empty directory, what a load of a final name finds is the whole receipt of an
  // attempt of that key: a torn file is never read under such a name, and only a failing read is an
  // error.
  lemma LoadsOnlyWholeReceipts(run: seq<Attempt>, final: Path, readFails: bool)
    requires final.Final?
    ensures match LoadedFrom(After(map[], run), final, readFails)
            case Unavailable => readFails
            case NotFound => forall i :: 0 <= i <= |run| ==> final !in After(map[], run[..i])
            case Found(r) =>
              exists i, response: Wire :: 0 <= i < |run| && FinalPath(run[i].req) == final && r == ReceiptOf(run[i].req, response)
  {
    ReceiptsAreForever(map[], run);
    match LoadedFrom(After(map[], run), final, readFails)
    case Unavailable =>
    case NotFound =>
      forall i | 0 <= i <= |run|
        ensures final !in After(map[], run[..i])
      {
        AfterJoins(map[], run[..i], run[i..]);
        assert run[..i] + run[i..] == run;
        ReceiptsAreForever(map[], run[..i]);
        ReceiptsAreForever(After(map[], run[..i]), run[i..]);
      }
    case Found(r) =>
      var i, response := StoredByAttempt(map[], run, final);
  }

  lemma {:induction false} CommandsStayRun(s: State, req: Request, o: Outcome, steps: nat)
    ensures s.ran <= Live(s, req, o, steps).ran
    decreases steps
  {
    if steps > 0 {
      CommandsStayRun(Next(s, req, o), req, o, steps - 1);
    }
  }

  // Provided nothing fails before the commands, an attempt that lives long enough runs its first
  // command exactly when the key has no receipt yet.
  lemma ExecutesIffUnrecorded(files: Files, a: Attempt)
    requires FinalsComplete(files) && a.steps >= 3 && !a.o.readFails && a.o.lookup == None
    requires a.req.plan.Some? && a.req.plan.value != []
    ensures Outcomes(files, a).ran != [] <==> FinalPath(a.req) !in files
  {
    if FinalPath(a.req) in files {
      ReplayTouchesNothing(files, a.req, a.o, a.steps);
    } else {
      var s0 := Begin(files);
      var s1 := Next(s0, a.req, a.o);
      var s2 := Next(s1, a.req, a.o);
      var s3 := Next(s2, a.req, a.o);
      assert Live(s0, a.req, a.o, a.steps) == Live(s1, a.req, a.o, a.steps - 1) == Live(s2, a.req, a.o, a.steps - 2);
      assert Live(s2, a.req, a.o, a.steps - 2) == Live(s3, a.req, a.o, a.steps - 3);
      CommandsStayRun(s3, a.req, a.o, a.steps - 3);
    }
  }
}
