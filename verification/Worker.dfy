// gameworker/state.go: the owner of asynchronous host jobs, and its snapshots.
module Worker {
  import opened Text
  import opened Ownership

  datatype Request = Request(
    key: string, verb: string, url: string, headers: map<string, string>, body: seq<char>, timeoutMs: nat)

  datatype Job = Job(
    key: string, state: string, status: int, headers: map<string, string>, body: seq<char>, error: string)

  const PENDING := "pending"
  const COMPLETED := "completed"
  const FAILED := "failed"
  const CANCELLED := "cancelled"
  const SNAPSHOT_VERSION := 1

  datatype Code = InvalidArgument | Conflict | NotFound | Internal

  datatype Reply = Answer(job: Job) | Failure(code: Code)

  // What the host says when it is asked. The outer option of a submitter or poller is the
  // collaborator itself, which may be absent; the inner one is empty when the call fails.
  datatype Poll = Poll(done: bool, status: int, headers: map<string, string>, body: seq<char>, error: string)
  type Submitter = Option<Option<nat>>
  type Poller = Option<Option<Poll>>
  type Canceller = Option<bool>

  // The value of a job record. The fingerprint is a hash of the whole normalised request, taken to
  // be injective; an imported job has the all-zero fingerprint, which no request has.
  datatype Owned = Owned(fingerprint: Option<Request>, taskID: nat, job: Job)

  type Jobs = map<string, Owned>

  // ---------- specification ----------

  function Normalized(req: Request): Request {
    req.(key := TrimSpace(req.key), verb := ToUpper(TrimSpace(req.verb)), url := TrimSpace(req.url))
  }

  predicate Complete(req: Request) {
    req.key != "" && req.verb != "" && req.url != ""
  }

  function NewJob(key: string): Job {
    Job(key, PENDING, 0, map[], [], "")
  }

  // The new jobs, the reply, and the request that the host was asked to run, if it was.
  datatype Submission = Submission(jobs: Jobs, reply: Reply, asked: Option<Request>)

  function Submitted(w: Jobs, request: Request, submitter: Submitter): Submission {
    var req := Normalized(request);
    if submitter.None? then Submission(w, Failure(Internal), None)
    else if !Complete(req) then Submission(w, Failure(InvalidArgument), None)
    else if req.key in w then
      Submission(w, if w[req.key].fingerprint == Some(req) then Answer(w[req.key].job) else Failure(Conflict), None)
    else
      match submitter.value
      case None => Submission(w, Failure(Internal), Some(req))
      case Some(task) =>
        Submission(w[req.key := Owned(Some(req), task, NewJob(req.key))], Answer(NewJob(req.key)), Some(req))
  }

  function Found(w: Jobs, key: string): Option<Code> {
    if TrimSpace(key) == "" then Some(InvalidArgument)
    else if TrimSpace(key) !in w then Some(NotFound)
    else None
  }

  function Settled(job: Job, p: Poll): Job {
    job.(status := p.status, headers := p.headers, body := p.body, error := p.error,
         state := if p.error != "" then FAILED else COMPLETED)
  }

  function Statused(w: Jobs, key: string, poller: Poller): (Jobs, Reply) {
    var k := TrimSpace(key);
    match Found(w, key)
    case Some(code) => (w, Failure(code))
    case None =>
      if w[k].job.state != PENDING then (w, Answer(w[k].job))
      else
        match poller
        case None => (w, Failure(Internal))
        case Some(None) => (w, Failure(Internal))
        case Some(Some(p)) =>
          if !p.done then (w, Answer(w[k].job))
          else (w[k := w[k].(job := Settled(w[k].job, p))], Answer(Settled(w[k].job, p)))
  }

  function Cancelled(w: Jobs, key: string, canceller: Canceller): (Jobs, Reply) {
    var k := TrimSpace(key);
    match Found(w, key)
    case Some(code) => (w, Failure(code))
    case None =>
      if w[k].job.state != PENDING then (w, Answer(w[k].job))
      else if canceller != Some(true) then (w, Failure(Internal))
      else
        var job := w[k].job.(state := CANCELLED);
        (w[k := w[k].(job := job)], Answer(job))
  }

  // What stands in the way of importing one job.
  function Refused(w: Jobs, job: Job): Option<Code> {
    var k := TrimSpace(job.key);
    if k == "" || job.state == PENDING then Some(InvalidArgument)
    else if k in w then Some(Conflict)
    else None
  }

  function Entered(w: Jobs, job: Job): Jobs {
    w[TrimSpace(job.key) := Owned(None, 0, job.(key := TrimSpace(job.key)))]
  }

  // The jobs before the first that is refused stay entered.
  function ImportedJobs(w: Jobs, jobs: seq<Job>): (Jobs, Option<Code>)
    decreases |jobs|
  {
    if jobs == [] then (w, None)
    else if Refused(w, jobs[0]).Some? then (w, Refused(w, jobs[0]))
    else ImportedJobs(Entered(w, jobs[0]), jobs[1..])
  }

  function Imported(w: Jobs, version: int, jobs: seq<Job>): (Jobs, Option<Code>) {
    if version != SNAPSHOT_VERSION then (w, Some(InvalidArgument)) else ImportedJobs(w, jobs)
  }

  function Finished(w: Jobs): set<string> {
    set k | k in w && w[k].job.state != PENDING
  }

  predicate Listing(w: Jobs, keys: seq<string>, jobs: seq<Job>) {
    |jobs| == |keys| && forall i :: 0 <= i < |keys| ==> keys[i] in w && jobs[i] == w[keys[i]].job
  }

  // The jobs that are no longer pending, in strict order of their keys in the table.
  ghost predicate IsExport(w: Jobs, jobs: seq<Job>) {
    exists keys :: Lists(keys, Finished(w)) && Listing(w, keys, jobs)
  }

  // ---------- the owner ----------

  class OwnedJob {
    const fingerprint: Option<Request>
    const taskID: nat
    var job: Job

    constructor (fingerprint: Option<Request>, taskID: nat, job: Job)
      ensures View() == Owned(fingerprint, taskID, job)
    {
      this.fingerprint, this.taskID, this.job := fingerprint, taskID, job;
    }

    function View(): Owned
      reads this
    {
      Owned(fingerprint, taskID, job)
    }
  }

  class State {
    var jobs: map<string, OwnedJob>
    // The value of the table.
    ghost var Contents: Jobs

    ghost predicate Valid()
      reads this, jobs.Values
    {
      && Contents.Keys == jobs.Keys
      && (forall k :: k in jobs ==> Contents[k] == jobs[k].View())
      && (forall a, b :: a in jobs && b in jobs && a != b ==> jobs[a] != jobs[b])
    }

    constructor ()
      ensures Valid() && Contents == map[]
    {
      jobs, Contents := map[], map[];
    }

    method Add(key: string, fingerprint: Option<Request>, taskID: nat, job: Job)
      requires Valid() && key !in jobs
      modifies this
      ensures Valid() && fresh(jobs.Values - old(jobs.Values))
      ensures Contents == old(Contents)[key := Owned(fingerprint, taskID, job)]
    {
      var owned := new OwnedJob(fingerprint, taskID, job);
      jobs := jobs[key := owned];
      Contents := Contents[key := owned.View()];
    }

    method Write(key: string, job: Job)
      requires Valid() && key in jobs
      modifies this`Contents, jobs[key]
      ensures Valid() && Contents == old(Contents)[key := old(Contents)[key].(job := job)]
    {
      jobs[key].job := job;
      Contents := Contents[key := jobs[key].View()];
    }

    method Submit(request: Request, submitter: Submitter) returns (reply: Reply, asked: Option<Request>)
      requires Valid()
      modifies this
      ensures Valid() && fresh(jobs.Values - old(jobs.Values))
      ensures Submission(Contents, reply, asked) == Submitted(old(Contents), request, submitter)
    {
      asked := None;
      if submitter.None? {
        return Failure(Internal), None;
      }
      var req := Normalized(request);
      if req.key == "" || req.verb == "" || req.url == "" {
        return Failure(InvalidArgument), None;
      }
      if req.key in jobs {
        var prior := jobs[req.key];
        if prior.fingerprint != Some(req) {
          return Failure(Conflict), None;
        }
        return Answer(prior.job), None;
      }
      asked := Some(req);
      if submitter.value.None? {
        return Failure(Internal), asked;
      }
      var job := NewJob(req.key);
      Add(req.key, Some(req), submitter.value.value, job);
      reply := Answer(job);
    }

    method Lookup(key: string) returns (k: string, error: Option<Code>)
      requires Valid()
      ensures k == TrimSpace(key) && error == Found(Contents, key) && (error == None ==> k in jobs)
    {
      k, error := TrimSpace(key), None;
      if k == "" {
        error := Some(InvalidArgument);
      } else if k !in jobs {
        error := Some(NotFound);
      }
    }

    method Status(key: string, poller: Poller) returns (reply: Reply)
      requires Valid()
      modifies this`Contents, jobs.Values
      ensures Valid() && (Contents, reply) == Statused(old(Contents), key, poller)
    {
      var k, error := Lookup(key);
      if error.Some? {
        return Failure(error.value);
      }
      var job := jobs[k].job;
      if job.state != PENDING {
        return Answer(job);
      }
      if poller.None? || poller.value.None? {
        return Failure(Internal);
      }
      var result := poller.value.value;
      if !result.done {
        return Answer(job);
      }
      job := job.(status := result.status, headers := result.headers, body := result.body, error := result.error);
      if result.error != "" {
        job := job.(state := FAILED);
      } else {
        job := job.(state := COMPLETED);
      }
      Write(k, job);
      reply := Answer(job);
    }

    method Cancel(key: string, canceller: Canceller) returns (reply: Reply)
      requires Valid()
      modifies this`Contents, jobs.Values
      ensures Valid() && (Contents, reply) == Cancelled(old(Contents), key, canceller)
    {
      var k, error := Lookup(key);
      if error.Some? {
        return Failure(error.value);
      }
      var job := jobs[k].job;
      if job.state != PENDING {
        return Answer(job);
      }
      if canceller != Some(true) {
        return Failure(Internal);
      }
      job := job.(state := CANCELLED);
      Write(k, job);
      reply := Answer(job);
    }

    // The keys of the jobs that are done, in the order of the map.
    method FinishedKeys() returns (keys: seq<string>)
      requires Valid()
      ensures forall i, j :: 0 <= i < j < |keys| ==> keys[i] != keys[j]
      ensures forall k :: k in keys <==> k in Finished(Contents)
    {
      keys := [];
      var todo := jobs.Keys;
      while todo != {}
        invariant todo <= jobs.Keys
        invariant forall i, j :: 0 <= i < j < |keys| ==> keys[i] != keys[j]
        invariant forall k :: k in keys <==> k in Finished(Contents) && k !in todo
        decreases |todo|
      {
        var key := Next(todo);
        if jobs[key].job.state != PENDING {
          keys := keys + [key];
        }
        todo := todo - {key};
      }
    }

    method Export() returns (exported: seq<Job>)
      requires Valid()
      ensures IsExport(Contents, exported)
    {
      var unsorted := FinishedKeys();
      var keys := SortStrings(unsorted);
      SortStringsLists(unsorted, Finished(Contents));
      exported := [];
      for i := 0 to |keys|
        invariant Listing(Contents, keys[..i], exported)
      {
        assert keys[i] in keys;
        exported := exported + [jobs[keys[i]].job];
      }
      assert keys[..|keys|] == keys;
    }

    method Import(version: int, snapshot: seq<Job>) returns (error: Option<Code>)
      requires Valid()
      modifies this
      ensures Valid() && fresh(jobs.Values - old(jobs.Values))
      ensures (Contents, error) == Imported(old(Contents), version, snapshot)
    {
      if version != SNAPSHOT_VERSION {
        return Some(InvalidArgument);
      }
      var i := 0;
      while i < |snapshot|
        invariant 0 <= i <= |snapshot|
        invariant Valid() && fresh(jobs.Values - old(jobs.Values))
        invariant ImportedJobs(old(Contents), snapshot) == ImportedJobs(Contents, snapshot[i..])
      {
        var job := snapshot[i];
        var key := TrimSpace(job.key);
        if key == "" || job.state == PENDING {
          return Some(InvalidArgument);
        }
        if key in jobs {
          return Some(Conflict);
        }
        assert snapshot[i..][1..] == snapshot[i + 1..];
        Add(key, None, 0, job.(key := key));
        i := i + 1;
      }
      return None;
    }
  }
}
