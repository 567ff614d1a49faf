// What the worker owner promises over runs of operations with arbitrary host results, and through
// its snapshots.
module WorkerRuns {
  import opened Text
  import opened Worker

  // ---------- runs ----------

  datatype Op =
    | SubmitOp(request: Request, submitter: Submitter)
    | StatusOp(key: string, poller: Poller)
    | CancelOp(key: string, canceller: Canceller)
    | ImportOp(version: int, jobs: seq<Job>)

  function Applied(w: Jobs, op: Op): Jobs {
    match op
    case SubmitOp(request, submitter) => Submitted(w, request, submitter).jobs
    case StatusOp(key, poller) => Statused(w, key, poller).0
    case CancelOp(key, canceller) => Cancelled(w, key, canceller).0
    case ImportOp(version, jobs) => Imported(w, version, jobs).0
  }

  function After(w: Jobs, run: seq<Op>): Jobs
    decreases |run|
  {
    if run == [] then w else After(Applied(w, run[0]), run[1..])
  }

  // The host accepted a job of this key.
  predicate Accepts(w: Jobs, op: Op, key: string) {
    op.SubmitOp? && Submitted(w, op.request, op.submitter).asked.Some? && Normalized(op.request).key == key &&
    Submitted(w, op.request, op.submitter).reply.Answer?
  }

  // The table names every job by its trimmed key, and an imported job is not pending.
  predicate Keyed(w: Jobs) {
    forall k :: k in w ==>
      && k != "" && TrimSpace(k) == k && w[k].job.key == k
      && (w[k].fingerprint.Some? ==>
            && w[k].fingerprint.value.key == k && Complete(w[k].fingerprint.value)
            && Normalized(w[k].fingerprint.value) == w[k].fingerprint.value)
      && (w[k].fingerprint.None? ==> w[k].job.state != PENDING)
  }

  // The job stays on record under its fingerprint; if it is done it stays as it is.
  predicate Preserved(before: Jobs, after: Jobs) {
    forall k :: k in before ==>
      && k in after && after[k].fingerprint == before[k].fingerprint && after[k].taskID == before[k].taskID
      && (before[k].job.state != PENDING ==> after[k] == before[k])
  }

  lemma UpperStaysTrimmed(s: string)
    requires Trimmed(s)
    ensures TrimSpace(ToUpper(s)) == ToUpper(s)
  {
  }

  lemma NormalizedIsNormal(req: Request)
    ensures Normalized(Normalized(req)) == Normalized(req)
  {
    TrimSpaceIdempotent(req.key);
    TrimSpaceIdempotent(req.url);
    TrimSpaceTrims(req.verb);
    ToUpperIdempotent(TrimSpace(req.verb));
    UpperStaysTrimmed(TrimSpace(req.verb));
  }

  lemma {:induction false} ImportPreserves(w: Jobs, jobs: seq<Job>)
    requires Keyed(w)
    ensures Keyed(ImportedJobs(w, jobs).0) && Preserved(w, ImportedJobs(w, jobs).0)
    decreases |jobs|
  {
    if jobs != [] && Refused(w, jobs[0]).None? {
      TrimSpaceIdempotent(jobs[0].key);
      ImportPreserves(Entered(w, jobs[0]), jobs[1..]);
    }
  }

  lemma SubmitPreserves(w: Jobs, request: Request, submitter: Submitter)
    requires Keyed(w)
    ensures var after := Submitted(w, request, submitter).jobs; Keyed(after) && Preserved(w, after)
  {
    TrimSpaceIdempotent(request.key);
    NormalizedIsNormal(request);
    hide TrimSpace, ToUpper;
  }

  lemma StatusPreserves(w: Jobs, key: string, poller: Poller)
    requires Keyed(w)
    ensures var after := Statused(w, key, poller).0; Keyed(after) && Preserved(w, after)
  {
    hide TrimSpace, ToUpper, Normalized;
  }

  lemma CancelPreserves(w: Jobs, key: string, canceller: Canceller)
    requires Keyed(w)
    ensures var after := Cancelled(w, key, canceller).0; Keyed(after) && Preserved(w, after)
  {
    hide TrimSpace, ToUpper, Normalized;
  }

  lemma KeptAsItIs(w: Jobs)
    ensures Preserved(w, w)
  {
  }

  lemma StepPreserves(w: Jobs, op: Op)
    requires Keyed(w)
    ensures Keyed(Applied(w, op)) && Preserved(w, Applied(w, op))
  {
    hide Keyed, Preserved, Submitted, Statused, Cancelled, ImportedJobs;
    match op
    case SubmitOp(request, submitter) => SubmitPreserves(w, request, submitter);
    case StatusOp(key, poller) => StatusPreserves(w, key, poller);
    case CancelOp(key, canceller) => CancelPreserves(w, key, canceller);
    case ImportOp(version, jobs) =>
      ImportPreserves(w, jobs);
      KeptAsItIs(w);
  }

  // Over every run: no job is forgotten, a job that is done never changes again, and a key stays
  // bound to the request it was first used for.
  lemma {:induction false} RunPreserves(w: Jobs, run: seq<Op>)
    requires Keyed(w)
    ensures Keyed(After(w, run)) && Preserved(w, After(w, run))
    decreases |run|
  {
    hide Applied;
    if run != [] {
      StepPreserves(w, run[0]);
      RunPreserves(Applied(w, run[0]), run[1..]);
    }
  }

  // The host accepts at most one job of each key in any run.
  lemma AtMostOneSubmission(w: Jobs, first: Op, run: seq<Op>, later: Op, key: string)
    requires Keyed(w) && Accepts(w, first, key)
    ensures !Accepts(After(Applied(w, first), run), later, key)
    ensures later.SubmitOp? && Normalized(later.request).key == key ==>
              Submitted(After(Applied(w, first), run), later.request, later.submitter).asked == None
  {
    hide TrimSpace, ToUpper, Complete;
    StepPreserves(w, first);
    RunPreserves(Applied(w, first), run);
  }

  // Requests that are equal once trimmed and upper-cased are the same work: after one of them was
  // accepted, the other is answered with the job as it is by then, and one that differs in any
  // other way is a conflict; neither reaches the host or changes a job.
  lemma RetriesReplay(w: Jobs, first: Request, submitter: Submitter, run: seq<Op>, retry: Request, again: nat)
    requires Keyed(w) && Accepts(w, SubmitOp(first, submitter), Normalized(first).key)
    requires Normalized(retry).key == Normalized(first).key && Complete(Normalized(retry))
    ensures var now := After(Submitted(w, first, submitter).jobs, run);
            var k := Normalized(first).key;
            && k in now
            && Submitted(now, retry, Some(Some(again))) ==
               Submission(now, if Normalized(retry) == Normalized(first) then Answer(now[k].job) else Failure(Conflict), None)
  {
    hide TrimSpace, ToUpper;
    StepPreserves(w, SubmitOp(first, submitter));
    RunPreserves(Submitted(w, first, submitter).jobs, run);
  }

  // ---------- one operation, field by field ----------

  // What the host is asked to run: the caller's request, with key, verb and URL trimmed and the verb
  // in upper case. It is asked exactly for a complete request under a key that is new, and its task
  // becomes a pending job.
  lemma SubmitDoes(w: Jobs, request: Request, submitter: Submitter)
    ensures var s := Submitted(w, request, submitter);
            var key, verb, url := TrimSpace(request.key), ToUpper(TrimSpace(request.verb)), TrimSpace(request.url);
            var normal := Request(key, verb, url, request.headers, request.body, request.timeoutMs);
            if submitter.None? then s == Submission(w, Failure(Internal), None)
            else if key == "" || verb == "" || url == "" then s == Submission(w, Failure(InvalidArgument), None)
            else if key in w then
              s == Submission(w, if w[key].fingerprint == Some(normal) then Answer(w[key].job) else Failure(Conflict), None)
            else if submitter.value.None? then s == Submission(w, Failure(Internal), Some(normal))
            else
              var job := Job(key, "pending", 0, map[], [], "");
              s == Submission(w[key := Owned(Some(normal), submitter.value.value, job)], Answer(job), Some(normal))
  {
    hide TrimSpace, ToUpper;
  }

  // The job of a known key, and a code otherwise.
  predicate FindsJob(w: Jobs, key: string, reply: Reply) {
    if TrimSpace(key) == "" then reply == Failure(InvalidArgument)
    else if TrimSpace(key) !in w then reply == Failure(NotFound)
    else true
  }

  // A poll that is done ends a pending job: as failed exactly if it tells an error. It brings status,
  // headers, body and error; everything else stays.
  lemma StatusDoes(w: Jobs, key: string, poller: Poller)
    ensures var (after, reply) := Statused(w, key, poller);
            var k := TrimSpace(key);
            && FindsJob(w, key, reply) && (k == "" || k !in w ==> after == w)
            && (k != "" && k in w ==>
                  if w[k].job.state != "pending" then after == w && reply == Answer(w[k].job)
                  else if poller.None? || poller.value.None? then after == w && reply == Failure(Internal)
                  else
                    var p := poller.value.value;
                    if !p.done then after == w && reply == Answer(w[k].job)
                    else
                      var job := Job(w[k].job.key, if p.error == "" then "completed" else "failed", p.status, p.headers, p.body, p.error);
                      reply == Answer(job) && after == w[k := Owned(w[k].fingerprint, w[k].taskID, job)])
  {
    hide TrimSpace;
  }

  // A cancellation that succeeds changes the state of a pending job and nothing else.
  lemma CancelDoes(w: Jobs, key: string, canceller: Canceller)
    ensures var (after, reply) := Cancelled(w, key, canceller);
            var k := TrimSpace(key);
            && FindsJob(w, key, reply) && (k == "" || k !in w ==> after == w)
            && (k != "" && k in w ==>
                  if w[k].job.state != "pending" then after == w && reply == Answer(w[k].job)
                  else if canceller != Some(true) then after == w && reply == Failure(Internal)
                  else
                    var was := w[k].job;
                    var job := Job(was.key, "cancelled", was.status, was.headers, was.body, was.error);
                    reply == Answer(job) && after == w[k := Owned(w[k].fingerprint, w[k].taskID, job)])
  {
    hide TrimSpace;
  }

  // An import that succeeds enters every job under its trimmed key, as it is and without a request,
  // and keeps what was there.
  lemma {:induction false} ImportDoes(w: Jobs, jobs: seq<Job>)
    requires ImportedJobs(w, jobs).1 == None
    ensures var after := ImportedJobs(w, jobs).0;
            && (forall k :: k in w ==> k in after && after[k] == w[k])
            && (forall k :: k in after && k !in w ==> exists i :: 0 <= i < |jobs| && TrimSpace(jobs[i].key) == k)
            && (forall i :: 0 <= i < |jobs| ==>
                  var k := TrimSpace(jobs[i].key);
                  && k != "" && k !in w && jobs[i].state != "pending" && k in after
                  && after[k] == Owned(None, 0, jobs[i].(key := k)))
    decreases |jobs|
  {
    hide TrimSpace;
    if jobs != [] {
      var next := Entered(w, jobs[0]);
      ImportDoes(next, jobs[1..]);
      var after := ImportedJobs(w, jobs).0;
      assert after == ImportedJobs(next, jobs[1..]).0;
      forall i | 0 <= i < |jobs|
        ensures var k := TrimSpace(jobs[i].key);
                && k != "" && k !in w && jobs[i].state != "pending" && k in after
                && after[k] == Owned(None, 0, jobs[i].(key := k))
      {
        if i > 0 {
          assert jobs[1..][i - 1] == jobs[i];
        }
      }
      forall k | k in after && k !in w
        ensures exists i :: 0 <= i < |jobs| && TrimSpace(jobs[i].key) == k
      {
        if k !in next {
          var i :| 0 <= i < |jobs[1..]| && TrimSpace(jobs[1..][i].key) == k;
          assert jobs[i + 1] == jobs[1..][i];
        }
      }
    }
  }

  // An import stops at the first job without a key, still pending, or of a key that the table or a job
  // before it has; a snapshot of another version than 1 is not looked at.
  lemma {:induction false} ImportRefuses(w: Jobs, jobs: seq<Job>) returns (i: nat)
    requires ImportedJobs(w, jobs).1.Some?
    ensures i < |jobs| && ImportedJobs(w, jobs[..i]) == (ImportedJobs(w, jobs).0, None)
    ensures var k, now := TrimSpace(jobs[i].key), ImportedJobs(w, jobs).0;
            if k == "" || jobs[i].state == "pending" then ImportedJobs(w, jobs).1 == Some(InvalidArgument)
            else k in now && ImportedJobs(w, jobs).1 == Some(Conflict)
    ensures Imported(w, 1, jobs) == ImportedJobs(w, jobs)
    ensures forall version :: version != 1 ==> Imported(w, version, jobs) == (w, Some(InvalidArgument))
    decreases |jobs|
  {
    hide TrimSpace;
    if Refused(w, jobs[0]).Some? {
      i := 0;
    } else {
      var j := ImportRefuses(Entered(w, jobs[0]), jobs[1..]);
      i := j + 1;
      assert jobs[..i][0] == jobs[0] && jobs[..i][1..] == jobs[1..][..j];
    }
  }

  // ---------- imported jobs ----------

  lemma {:induction false} ImportedWithoutRequest(w: Jobs, jobs: seq<Job>, key: string)
    requires Keyed(w) && key !in w && key in ImportedJobs(w, jobs).0
    ensures ImportedJobs(w, jobs).0[key].fingerprint == None
    decreases |jobs|
  {
    if jobs != [] && Refused(w, jobs[0]).None? {
      TrimSpaceIdempotent(jobs[0].key);
      var next := Entered(w, jobs[0]);
      if key in next {
        ImportPreserves(next, jobs[1..]);
      } else {
        ImportedWithoutRequest(next, jobs[1..], key);
      }
    }
  }

  lemma NoRequestConflicts(w: Jobs, run: seq<Op>, request: Request, submitter: Option<nat>)
    requires Keyed(w) && Complete(Normalized(request)) && Normalized(request).key in w
    requires w[Normalized(request).key].fingerprint == None
    ensures Submitted(After(w, run), request, Some(submitter)) == Submission(After(w, run), Failure(Conflict), None)
  {
    RunPreserves(w, run);
  }

  // A key that entered through an import has lost its request: whatever run follows, every complete
  // submission to it is a conflict that neither reaches the host nor changes a job.
  lemma ImportedKeysAlwaysConflict(w: Jobs, version: int, jobs: seq<Job>, run: seq<Op>, request: Request, submitter: Option<nat>)
    requires Keyed(w) && Complete(Normalized(request))
    requires Normalized(request).key !in w && Normalized(request).key in Imported(w, version, jobs).0
    ensures var now := After(Imported(w, version, jobs).0, run);
            Submitted(now, request, Some(submitter)) == Submission(now, Failure(Conflict), None)
  {
    ImportedWithoutRequest(w, jobs, Normalized(request).key);
    ImportPreserves(w, jobs);
    NoRequestConflicts(Imported(w, version, jobs).0, run, request, submitter);
  }

  // ---------- snapshots ----------

  // Two exports of one table are equal: the order of the map leaves no trace.
  lemma ExportUnique(w: Jobs, a: seq<Job>, b: seq<Job>)
    requires IsExport(w, a) && IsExport(w, b)
    ensures a == b
  {
    var ka :| Lists(ka, Finished(w)) && Listing(w, ka, a);
    var kb :| Lists(kb, Finished(w)) && Listing(w, kb, b);
    ListingUnique(ka, kb, Finished(w));
  }

  // The table that an import of a listing makes of the empty one.
  function Reimported(w: Jobs, keys: seq<string>): Jobs
    requires forall k :: k in keys ==> k in w
  {
    map k | k in keys :: Owned(None, 0, w[k].job)
  }

  lemma NotYetListed(keys: seq<string>, i: nat)
    requires StrictlySorted(keys) && i < |keys|
    ensures keys[i] !in keys[..i]
  {
    forall j | 0 <= j < i
      ensures keys[j] != keys[i]
    {
      LessTotal(keys[i], keys[i]);
      assert Less(keys[j], keys[i]);
    }
  }

  // The keys name finished jobs of the table, in order.
  predicate ListsFinished(w: Jobs, keys: seq<string>) {
    forall k :: k in keys ==> k in w && w[k].job.state != PENDING
  }

  // The next job goes in.
  lemma EnterNext(w: Jobs, keys: seq<string>, i: nat)
    requires Keyed(w) && ListsFinished(w, keys) && StrictlySorted(keys) && i < |keys|
    ensures forall k :: k in keys[..i] || k in keys[..i + 1] ==> k in w
    ensures keys[i] in w && Refused(Reimported(w, keys[..i]), w[keys[i]].job) == None
    ensures Entered(Reimported(w, keys[..i]), w[keys[i]].job) == Reimported(w, keys[..i + 1])
  {
    NotYetListed(keys, i);
    hide TrimSpace, StrictlySorted, Normalized;
    assert forall k :: k in keys[..i] ==> k in keys;
    assert keys[..i + 1] == keys[..i] + [keys[i]];
    assert keys[i] in keys;
  }

  // Importing the jobs from position i on, into what the ones before have made.
  lemma {:induction false} ImportListing(w: Jobs, keys: seq<string>, jobs: seq<Job>, i: nat)
    requires Keyed(w) && Listing(w, keys, jobs) && StrictlySorted(keys) && i <= |keys| && ListsFinished(w, keys)
    ensures forall k :: k in keys[..i] ==> k in w
    ensures ImportedJobs(Reimported(w, keys[..i]), jobs[i..]) == (Reimported(w, keys), None)
    decreases |keys| - i
  {
    hide Keyed, StrictlySorted, Refused, Entered, Reimported;
    assert forall k :: k in keys[..i] ==> k in keys;
    if i == |keys| {
      assert keys[..i] == keys && jobs[i..] == [];
    } else {
      EnterNext(w, keys, i);
      assert jobs[i..][0] == w[keys[i]].job && jobs[i..][1..] == jobs[i + 1..];
      ImportListing(w, keys, jobs, i + 1);
    }
  }

  lemma ReimportedAnswers(w: Jobs, keys: seq<string>, key: string)
    requires Keyed(w) && Lists(keys, Finished(w))
    ensures ListsFinished(w, keys)
    ensures var restored := Reimported(w, keys);
            && restored.Keys == Finished(w) == Finished(restored)
            && (if TrimSpace(key) in Finished(w)
                then Statused(restored, key, None) == (restored, Answer(w[TrimSpace(key)].job))
                else Statused(restored, key, None).1.Failure?)
  {
    hide TrimSpace, StrictlySorted, Normalized;
  }

  lemma ReimportedLists(w: Jobs, keys: seq<string>, jobs: seq<Job>)
    requires ListsFinished(w, keys) && Listing(w, keys, jobs)
    ensures Reimported(w, []) == map[] && Listing(Reimported(w, keys), keys, jobs)
  {
    assert forall i :: 0 <= i < |keys| ==> keys[i] in keys;
  }

  // Export, import into an empty owner, and the result: the import succeeds, every exported job
  // answers for its key without a poller, nothing else does, and a further export is the same.
  lemma SnapshotRoundTrip(w: Jobs, jobs: seq<Job>, key: string)
    requires Keyed(w) && IsExport(w, jobs)
    ensures var (restored, error) := Imported(map[], SNAPSHOT_VERSION, jobs);
            && error == None && restored.Keys == Finished(w)
            && (if TrimSpace(key) in Finished(w)
                then Statused(restored, key, None) == (restored, Answer(w[TrimSpace(key)].job))
                else Statused(restored, key, None).1.Failure?)
            && IsExport(restored, jobs)
  {
    hide Keyed, StrictlySorted, Statused, Refused, TrimSpace, ImportedJobs, Reimported, Listing;
    var keys :| Lists(keys, Finished(w)) && Listing(w, keys, jobs);
    ReimportedAnswers(w, keys, key);
    ImportListing(w, keys, jobs, 0);
    assert keys[..0] == [] && jobs[0..] == jobs;
    ReimportedLists(w, keys, jobs);
  }

  // So the requests of finished jobs do not survive a snapshot: after export and import into an
  // empty owner, and any run, the very request that made a job conflicts with it.
  lemma SnapshotForgetsRequests(w: Jobs, jobs: seq<Job>, key: string, run: seq<Op>, submitter: Option<nat>)
    requires Keyed(w) && IsExport(w, jobs) && key in Finished(w) && w[key].fingerprint.Some?
    ensures var now := After(Imported(map[], SNAPSHOT_VERSION, jobs).0, run);
            Submitted(now, w[key].fingerprint.value, Some(submitter)) == Submission(now, Failure(Conflict), None)
  {
    hide After, Submitted, Imported;
    SnapshotRoundTrip(w, jobs, key);
    ImportedKeysAlwaysConflict(map[], SNAPSHOT_VERSION, jobs, run, w[key].fingerprint.value, submitter);
  }

  // ---------- an import that fails ----------

  lemma {:induction false} ImportOnlyAdds(w: Jobs, jobs: seq<Job>)
    ensures forall k :: k in w ==> k in ImportedJobs(w, jobs).0
    decreases |jobs|
  {
    if jobs != [] && Refused(w, jobs[0]).None? {
      ImportOnlyAdds(Entered(w, jobs[0]), jobs[1..]);
    }
  }

  // An import is not all or nothing: of a snapshot that is refused, the jobs before the offending
  // one stay. The table is left as it was exactly when the very first job is refused.
  lemma FailedImportIsCleanIff(w: Jobs, version: int, jobs: seq<Job>)
    requires Imported(w, version, jobs).1.Some?
    ensures Imported(w, version, jobs).0 == w <==> version != SNAPSHOT_VERSION || Refused(w, jobs[0]).Some?
  {
    if version == SNAPSHOT_VERSION && Refused(w, jobs[0]).None? {
      var k := TrimSpace(jobs[0].key);
      ImportOnlyAdds(Entered(w, jobs[0]), jobs[1..]);
      assert k !in w && k in Imported(w, version, jobs).0;
    }
  }
}
