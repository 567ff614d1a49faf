// archiveowner/v2_world_source.go: the snapshot of a world between save-off and save-on, staged in
// a private file.
module Archive {
  import opened Text

  datatype Call =
    | Rcon(command: string)
    | Delayed
    | Fetched
    | Created(path: string)
    | Removed(path: string)

  datatype Request = Request(valid: bool, flushSaves: bool)

  // What each call comes to, should it be made. temp is the name of a new staging file, if one can
  // be made; it differs from every file there is.
  datatype Outcome = Outcome(
    accessFails: bool, saveOffFails: bool, flushFails: bool, waitFails: bool,
    requestFails: bool, fetchFails: bool, status: int, zip: bool, temp: Option<string>,
    copyFails: bool, size: int, contentLength: int, seekFails: bool,
    saveOnFails: bool, closeFails: bool, removeFails: bool)

  datatype Body = Body(path: string, size: int)

  // The staging files there are, and what has been asked of the outside so far.
  datatype World = World(files: set<string>, calls: seq<Call>)

  // A body, or none with an error.
  datatype Result = Result(world: World, body: Option<Body>, failed: bool)

  // ---------- specification ----------

  function Called(w: World, c: Call): World {
    w.(calls := w.calls + [c])
  }

  function Dropped(w: World, path: string, removeFails: bool): World {
    Called(if removeFails then w else w.(files := w.files - {path}), Removed(path))
  }

  function Failing(w: World): Result {
    Result(w, None, true)
  }

  // The response is one that a staging file is made for.
  predicate Staged(o: Outcome) {
    !o.requestFails && !o.fetchFails && o.status == 200 && o.zip && o.temp.Some?
  }

  // The staging file holds all of a world.
  predicate Whole(o: Outcome) {
    !o.copyFails && (o.contentLength >= 0 ==> o.size == o.contentLength) && o.size > 0 && !o.seekFails
  }

  function FetchSpec(w: World, o: Outcome): Result {
    if o.requestFails then Failing(w)
    else
      var w1 := Called(w, Fetched);
      if !Staged(o) then Failing(w1)
      else
        var w2 := Called(w1.(files := w1.files + {o.temp.value}), Created(o.temp.value));
        if Whole(o) then Result(w2, Some(Body(o.temp.value, o.size)), false)
        else Failing(Dropped(w2, o.temp.value, o.removeFails))
  }

  // Between save-off and save-on.
  function BracketedSpec(w: World, o: Outcome): Result {
    var w1 := Called(w, Rcon("save-off"));
    if o.saveOffFails then Failing(w1)
    else
      var w2 := Called(w1, Rcon("save-all flush"));
      if o.flushFails then Failing(w2)
      else
        var w3 := Called(w2, Delayed);
        if o.waitFails then Failing(w3) else FetchSpec(w3, o)
  }

  // The deferred restore.
  function RestoredSpec(r: Result, o: Outcome): Result {
    var w := Called(r.world, Rcon("save-on"));
    if !o.saveOnFails then r.(world := w)
    else if r.body.Some? then Failing(Dropped(w, r.body.value.path, o.removeFails))
    else Failing(w)
  }

  function SnapshotSpec(w: World, request: Request, o: Outcome): Result {
    if !request.valid || o.accessFails then Failing(w)
    else if request.flushSaves then RestoredSpec(BracketedSpec(w, o), o)
    else FetchSpec(w, o)
  }

  // ---------- the source ----------

  class Host {
    var files: set<string>
    var calls: seq<Call>

    constructor (files: set<string>)
      ensures View() == World(files, [])
    {
      this.files, calls := files, [];
    }

    function View(): World
      reads this
    {
      World(files, calls)
    }

    method Log(c: Call)
      modifies this`calls
      ensures View() == Called(old(View()), c)
    {
      calls := calls + [c];
    }

    method Remove(path: string, fails: bool)
      modifies this
      ensures View() == Dropped(old(View()), path, fails)
    {
      if !fails {
        files := files - {path};
      }
      Log(Removed(path));
    }

    method Exec(command: string, fails: bool) returns (ok: bool)
      modifies this`calls
      ensures View() == Called(old(View()), Rcon(command)) && ok == !fails
    {
      Log(Rcon(command));
      ok := !fails;
    }
  }

  // removeOnCloseFile
  class StagedFile {
    const path: string
    var closed: bool
    var failed: bool

    constructor (path: string)
      ensures this.path == path && !closed && !failed
    {
      this.path, closed, failed := path, false, false;
    }

    // Only the first call closes and removes the file; every later one reports what the first did.
    method Close(host: Host, closeFails: bool, removeFails: bool) returns (error: bool)
      modifies this, host
      ensures closed && error == failed
      ensures old(closed) ==> host.View() == old(host.View()) && failed == old(failed)
      ensures !old(closed) ==> host.View() == Dropped(old(host.View()), path, removeFails) && failed == (closeFails || removeFails)
    {
      if !closed {
        closed := true;
        host.Remove(path, removeFails);
        failed := closeFails || removeFails;
      }
      error := failed;
    }
  }

  // A staged file, with the value that stands for it.
  predicate Holds(file: StagedFile?, body: Option<Body>, size: int)
    reads if file == null then {} else {file}
  {
    if file == null then body == None else !file.closed && body == Some(Body(file.path, size))
  }

  class V2WorldSource {
    const host: Host

    constructor (host: Host)
      ensures this.host == host
    {
      this.host := host;
    }

    // Copies the response into the file and rewinds it; true means that the file is of no use.
    method Fill(o: Outcome) returns (removeStaging: bool)
      ensures removeStaging == !Whole(o)
    {
      if o.copyFails {
        return true;
      }
      if o.contentLength >= 0 && o.size != o.contentLength {
        return true;
      }
      if o.size <= 0 {
        return true;
      }
      if o.seekFails {
        return true;
      }
      return false;
    }

    method FetchWorld(o: Outcome) returns (file: StagedFile?, size: int, failed: bool)
      modifies host
      ensures file != null ==> fresh(file)
      ensures var r := FetchSpec(old(host.View()), o);
              host.View() == r.world && Holds(file, r.body, size) && failed == r.failed
    {
      file, size, failed := null, 0, true;
      if o.requestFails {
        return;
      }
      host.Log(Fetched);
      if o.fetchFails {
        return;
      }
      if o.status != 200 {
        return;
      }
      if !o.zip || o.temp.None? {
        return;
      }
      var path := o.temp.value;
      host.files := host.files + {path};
      host.Log(Created(path));
      var removeStaging := Fill(o);
      if removeStaging {
        host.Remove(path, o.removeFails);
        return;
      }
      file := new StagedFile(path);
      size, failed := o.size, false;
    }

    method FlushAndFetch(o: Outcome) returns (file: StagedFile?, size: int, failed: bool)
      modifies host
      ensures file != null ==> fresh(file)
      ensures var r := BracketedSpec(old(host.View()), o);
              host.View() == r.world && Holds(file, r.body, size) && failed == r.failed
    {
      file, size, failed := null, 0, true;
      var ok := host.Exec("save-off", o.saveOffFails);
      if !ok {
        return;
      }
      ok := host.Exec("save-all flush", o.flushFails);
      if !ok {
        return;
      }
      host.Log(Delayed);
      if o.waitFails {
        return;
      }
      file, size, failed := FetchWorld(o);
    }

    method SnapshotWorld(request: Request, o: Outcome) returns (file: StagedFile?, size: int, failed: bool)
      modifies host
      ensures file != null ==> fresh(file) && !file.closed
      ensures var r := SnapshotSpec(old(host.View()), request, o);
              && host.View() == r.world && failed == r.failed
              && r.body == if file == null then None else Some(Body(file.path, size))
    {
      file, size, failed := null, 0, true;
      if !request.valid {
        return;
      }
      if o.accessFails {
        return;
      }
      if !request.flushSaves {
        file, size, failed := FetchWorld(o);
        return;
      }
      file, size, failed := FlushAndFetch(o);
      // What was deferred.
      var ok := host.Exec("save-on", o.saveOnFails);
      if !ok {
        if file != null {
          var _ := file.Close(host, o.closeFails, o.removeFails);
          file := null;
        }
        failed := true;
      }
    }
  }

  // ---------- what the bracket keeps ----------

  predicate IsRemoval(c: Call) {
    c.Removed?
  }

  // The calls that an operation adds.
  function Added(before: World, after: World): seq<Call>
    requires before.calls <= after.calls
  {
    after.calls[|before.calls|..]
  }

  // At most one save-off, which comes first; if there is one there is one save-on, with nothing but
  // removals of the staging file after it; if there is none there is no save-on.
  ghost predicate Bracketed(cs: seq<Call>) {
    if Rcon("save-off") !in cs then Rcon("save-on") !in cs
    else
      exists j :: 0 < j < |cs| && cs[0] == Rcon("save-off") && cs[j] == Rcon("save-on") &&
                  (forall i :: 0 < i < |cs| ==> cs[i] != Rcon("save-off")) &&
                  (forall i :: 0 <= i < |cs| && i != j ==> cs[i] != Rcon("save-on")) &&
                  (forall i :: j < i < |cs| ==> IsRemoval(cs[i]))
  }

  function FetchCalls(o: Outcome): seq<Call> {
    if o.requestFails then []
    else if !Staged(o) then [Fetched]
    else if Whole(o) then [Fetched, Created(o.temp.value)]
    else [Fetched, Created(o.temp.value), Removed(o.temp.value)]
  }

  lemma FetchAdds(w: World, o: Outcome)
    ensures FetchSpec(w, o).world.calls == w.calls + FetchCalls(o)
  {
  }

  function InnerCalls(o: Outcome): seq<Call> {
    [Rcon("save-off")] +
    (if o.saveOffFails then []
     else [Rcon("save-all flush")] + (if o.flushFails then [] else [Delayed] + (if o.waitFails then [] else FetchCalls(o))))
  }

  lemma BracketedAdds(w: World, o: Outcome)
    ensures BracketedSpec(w, o).world.calls == w.calls + InnerCalls(o)
  {
    FetchAdds(Called(Called(Called(w, Rcon("save-off")), Rcon("save-all flush")), Delayed), o);
  }

  // The calls of a snapshot that flushes: those inside the bracket, the restore, and the removal of
  // a file that a failed restore makes useless.
  function FlushedCalls(o: Outcome): seq<Call> {
    var inner := BracketedSpec(World({}, []), o);
    InnerCalls(o) + [Rcon("save-on")] + (if o.saveOnFails && inner.body.Some? then [Removed(inner.body.value.path)] else [])
  }

  lemma BodyOf(w: World, o: Outcome)
    ensures BracketedSpec(w, o).body == BracketedSpec(World({}, []), o).body
  {
  }

  lemma FlushedAdds(w: World, o: Outcome)
    ensures RestoredSpec(BracketedSpec(w, o), o).world.calls == w.calls + FlushedCalls(o)
  {
    BracketedAdds(w, o);
    BodyOf(w, o);
    hide BracketedSpec, InnerCalls;
    assert w.calls + InnerCalls(o) + [Rcon("save-on")] == w.calls + (InnerCalls(o) + [Rcon("save-on")]);
  }

  lemma CommandsDiffer()
    ensures "save-on" != "save-off" && "save-on" != "save-all flush" && "save-off" != "save-all flush"
  {
    assert |"save-on"| != |"save-off"| && |"save-on"| != |"save-all flush"| && |"save-off"| != |"save-all flush"|;
  }

  lemma InnerCallsPlain(o: Outcome)
    ensures InnerCalls(o) != [] && InnerCalls(o)[0] == Rcon("save-off") && Rcon("save-on") !in InnerCalls(o)
    ensures forall i :: 0 < i < |InnerCalls(o)| ==> InnerCalls(o)[i] != Rcon("save-off")
  {
    CommandsDiffer();
    var rest := InnerCalls(o)[1..];
    assert InnerCalls(o) == [Rcon("save-off")] + rest;
    assert forall c :: c in FetchCalls(o) ==> !c.Rcon?;
    assert forall c :: c in rest ==> c != Rcon("save-off") && c != Rcon("save-on");
  }

  lemma FlushedBracketed(o: Outcome)
    ensures Bracketed(FlushedCalls(o)) && Rcon("save-off") in FlushedCalls(o)
  {
    InnerCallsPlain(o);
    CommandsDiffer();
    hide InnerCalls, BracketedSpec;
    var cs, j := FlushedCalls(o), |InnerCalls(o)|;
    assert cs[0] == Rcon("save-off") && cs[j] == Rcon("save-on");
    assert forall i :: 0 <= i < j ==> cs[i] == InnerCalls(o)[i];
    assert forall i :: j < i < |cs| ==> IsRemoval(cs[i]);
  }

  lemma FetchCallsPlain(o: Outcome)
    ensures Rcon("save-off") !in FetchCalls(o) && Rcon("save-on") !in FetchCalls(o)
  {
  }

  // The calls that a snapshot adds.
  lemma AddedCalls(w: World, request: Request, o: Outcome)
    ensures var r := SnapshotSpec(w, request, o);
            && w.calls <= r.world.calls
            && Added(w, r.world) ==
               if !request.valid || o.accessFails then [] else if request.flushSaves then FlushedCalls(o) else FetchCalls(o)
  {
    FlushedAdds(w, o);
    FetchAdds(w, o);
    hide RestoredSpec, FetchSpec, FlushedCalls, FetchCalls;
    var cs := if !request.valid || o.accessFails then [] else if request.flushSaves then FlushedCalls(o) else FetchCalls(o);
    assert SnapshotSpec(w, request, o).world.calls == w.calls + cs;
    assert Added(w, SnapshotSpec(w, request, o).world) == cs;
  }

  // For every combination of outcomes saving is restored by exactly one attempt, after all other work.
  lemma SavesAreRestored(w: World, request: Request, o: Outcome)
    ensures var r := SnapshotSpec(w, request, o);
            && w.calls <= r.world.calls && Bracketed(Added(w, r.world))
            && (Rcon("save-off") in Added(w, r.world) <==> request.valid && !o.accessFails && request.flushSaves)
  {
    AddedCalls(w, request, o);
    FlushedBracketed(o);
    FetchCallsPlain(o);
    hide SnapshotSpec, FlushedCalls, FetchCalls;
  }

  // In a bracket that works: what stands where.
  ghost predicate InOrder(cs: seq<Call>, o: Outcome) {
    && (Rcon("save-all flush") in cs <==> !o.saveOffFails)
    && (Delayed in cs <==> !o.saveOffFails && !o.flushFails)
    && (Fetched in cs <==> !o.saveOffFails && !o.flushFails && !o.waitFails && !o.requestFails)
    && (Rcon("save-all flush") in cs ==> |cs| >= 2 && cs[1] == Rcon("save-all flush"))
    && (Delayed in cs ==> |cs| >= 3 && cs[1] == Rcon("save-all flush") && cs[2] == Delayed)
    && (Fetched in cs ==> |cs| >= 4 && cs[1] == Rcon("save-all flush") && cs[2] == Delayed && cs[3] == Fetched)
  }

  lemma InnerInOrder(o: Outcome)
    ensures InOrder(InnerCalls(o), o)
  {
    CommandsDiffer();
    FetchCallsPlain(o);
    if o.saveOffFails {
    } else if o.flushFails {
      assert InnerCalls(o) == [Rcon("save-off"), Rcon("save-all flush")];
    } else if o.waitFails {
      assert InnerCalls(o) == [Rcon("save-off"), Rcon("save-all flush"), Delayed];
    } else {
      assert InnerCalls(o) == [Rcon("save-off"), Rcon("save-all flush"), Delayed] + FetchCalls(o);
    }
  }

  lemma FlushedInOrder(o: Outcome)
    ensures InOrder(FlushedCalls(o), o)
  {
    InnerInOrder(o);
    CommandsDiffer();
    hide InnerCalls, BracketedSpec;
    var inner, cs := InnerCalls(o), FlushedCalls(o);
    assert forall i :: 0 <= i < |inner| ==> cs[i] == inner[i];
    assert forall c :: c in cs && c !in inner ==> c == Rcon("save-on") || c.Removed?;
    assert forall c :: c in inner ==> c in cs;
  }

  // The commands and the fetch stand in their order, each only if those before it went well: first
  // save-off, then the flush, then the delay, and the fetch only after all three.
  lemma FlushesBeforeFetching(w: World, request: Request, o: Outcome)
    requires request.valid && !o.accessFails && request.flushSaves
    ensures w.calls <= SnapshotSpec(w, request, o).world.calls
    ensures var cs := Added(w, SnapshotSpec(w, request, o).world); cs != [] && cs[0] == Rcon("save-off") && InOrder(cs, o)
  {
    AddedCalls(w, request, o);
    FlushedInOrder(o);
    InnerCallsPlain(o);
    hide InnerCalls, InOrder, RestoredSpec, BracketedSpec;
  }

  // A staging file gets made.
  predicate Makes(request: Request, o: Outcome) {
    && request.valid && !o.accessFails && Staged(o)
    && (request.flushSaves ==> !o.saveOffFails && !o.flushFails && !o.waitFails)
  }

  // There is a snapshot exactly when nothing goes wrong: the whole response is a zip that arrives with
  // the length announced, if one was, and is not empty; and for a flushing request saving is restored.
  lemma SnapshotSucceedsIff(w: World, request: Request, o: Outcome)
    ensures var r := SnapshotSpec(w, request, o);
            && (!r.failed <==>
                  && request.valid && !o.accessFails
                  && (request.flushSaves ==> !o.saveOffFails && !o.flushFails && !o.waitFails && !o.saveOnFails)
                  && !o.requestFails && !o.fetchFails && o.status == 200 && o.zip && o.temp.Some?
                  && !o.copyFails && (o.contentLength >= 0 ==> o.size == o.contentLength) && o.size > 0 && !o.seekFails)
            && r.body == if r.failed then None else Some(Body(o.temp.value, o.size))
  {
  }

  // A body comes back exactly when there is no error; then one staging file was added, and it is
  // the body's. With an error no file is left behind, unless one was made and cannot be removed.
  lemma StagingConserved(w: World, request: Request, o: Outcome)
    requires o.temp.Some? ==> o.temp.value !in w.files
    ensures var r := SnapshotSpec(w, request, o);
            && (r.body.Some? <==> !r.failed)
            && (r.body.Some? ==> o.temp == Some(r.body.value.path) && r.body.value.size > 0 &&
                                 r.world.files == w.files + {r.body.value.path})
            && (r.body.None? ==> (r.world.files == w.files <==> !(o.removeFails && Makes(request, o))))
  {
    if o.temp.Some? {
      assert (w.files + {o.temp.value}) - {o.temp.value} == w.files;
    }
  }

  // Closing the body removes its file, and the staging directory is as it was before the snapshot.
  lemma CloseGivesFileBack(w: World, request: Request, o: Outcome)
    requires o.temp.Some? ==> o.temp.value !in w.files
    requires SnapshotSpec(w, request, o).body.Some?
    ensures var r := SnapshotSpec(w, request, o); Dropped(r.world, r.body.value.path, false).files == w.files
  {
    StagingConserved(w, request, o);
  }
}
