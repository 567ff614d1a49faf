// templatecatalog/state.go: the canonical catalog of game templates and its request ledger.
module Catalog {
  import opened Text
  import opened Ownership

  // What the JSON package does with a text: whether it is valid, and its compact form, in which it
  // appears inside an encoded document. Every statement about entries holds for all such functions.
  datatype Json = Json(valid: string -> bool, compact: string -> string)

  // cpuLimit is None for the floats that JSON cannot encode.
  datatype Entry = Entry(
    name: string, game: string, caption: string, engine: string, cpuLimit: Option<real>, memoryLimit: int,
    config: string, runtime: string)

  type Entries = map<string, Entry>

  // The encoding of a list of entries is taken to be injective up to compacting: it is the list of
  // their fields, with the JSON texts compacted and an empty runtime left out.
  datatype Encoded = Encoded(
    name: string, game: string, caption: string, engine: string, cpuLimit: Option<real>, memoryLimit: int,
    config: string, runtime: Option<string>)

  type Fingerprint = seq<Encoded>

  datatype Code = InvalidArgument | Conflict | NotFound | Internal

  datatype Validation = Accepted(entries: Entries) | Rejected(code: Code)

  datatype Reply = Listing(revision: nat, entries: seq<Entry>) | Failure(code: Code)

  const SNAPSHOT_VERSION := 1
  const REVISIONS := 0x1_0000_0000_0000_0000

  // ---------- validation ----------

  function Normal(e: Entry): Entry {
    e.(name := TrimSpace(e.name), game := TrimSpace(e.game), config := if e.config == "" then "{}" else e.config)
  }

  // What is wrong with an entry, given the ones before it.
  function Fault(json: Json, seen: set<string>, e: Entry): Option<Code> {
    var n := Normal(e);
    if n.name == "" || n.game == "" then Some(InvalidArgument)
    else if n.name in seen then Some(Conflict)
    else if !json.valid(n.config) || (n.runtime != "" && !json.valid(n.runtime)) then Some(InvalidArgument)
    else None
  }

  function Collected(json: Json, so: Entries, source: seq<Entry>): Validation
    decreases |source|
  {
    if source == [] then Accepted(so)
    else
      match Fault(json, so.Keys, source[0])
      case Some(code) => Rejected(code)
      case None => Collected(json, so[Normal(source[0]).name := Normal(source[0])], source[1..])
  }

  predicate Encodable(m: Entries) {
    forall k :: k in m ==> m[k].cpuLimit.Some?
  }

  function Validated(json: Json, source: seq<Entry>): Validation {
    match Collected(json, map[], source)
    case Rejected(code) => Rejected(code)
    case Accepted(m) => if Encodable(m) then Accepted(m) else Rejected(Internal)
  }

  // ---------- listings ----------

  ghost function SortedKeys(keys: set<string>): (s: seq<string>)
    ensures Lists(s, keys)
  {
    if keys == {} then []
    else
      var k :| k in keys;
      InsertSorts(k, SortedKeys(keys - {k}));
      Insert(k, SortedKeys(keys - {k}))
  }

  function InOrder(m: Entries, keys: seq<string>): (s: seq<Entry>)
    requires forall k :: k in keys ==> k in m
    ensures |s| == |keys| && forall i :: 0 <= i < |keys| ==> s[i] == m[keys[i]]
  {
    seq(|keys|, i requires 0 <= i < |keys| => assert keys[i] in keys; m[keys[i]])
  }

  ghost function ListingOf(m: Entries): seq<Entry> {
    InOrder(m, SortedKeys(m.Keys))
  }

  function Wire(json: Json, e: Entry): Encoded {
    Encoded(e.name, e.game, e.caption, e.engine, e.cpuLimit, e.memoryLimit, json.compact(e.config),
            if e.runtime == "" then None else Some(json.compact(e.runtime)))
  }

  function Wires(json: Json, s: seq<Entry>): Fingerprint {
    seq(|s|, i requires 0 <= i < |s| => Wire(json, s[i]))
  }

  ghost function FingerprintOf(json: Json, m: Entries): Fingerprint {
    Wires(json, ListingOf(m))
  }

  // ---------- operations ----------

  // A revision counter is a uint64.
  function Wrapped(n: nat): nat {
    n % REVISIONS
  }

  function Successor(revision: nat): nat {
    Wrapped(revision + 1)
  }

  // The value of the owner.
  datatype Table = Table(revision: nat, entries: Entries, requests: map<string, Fingerprint>)

  ghost function CatalogOf(t: Table): Reply {
    Listing(t.revision, ListingOf(t.entries))
  }

  // What becomes of validated entries under a request ID; revision is the one they would get.
  ghost function Installed(json: Json, t: Table, id: string, m: Entries, revision: nat): (Table, Reply) {
    if id in t.requests then (t, if t.requests[id] == FingerprintOf(json, m) then CatalogOf(t) else Failure(Conflict))
    else
      var t1 := Table(revision, m, t.requests[id := FingerprintOf(json, m)]);
      (t1, CatalogOf(t1))
  }

  ghost function Replaced(json: Json, t: Table, requestID: string, source: seq<Entry>): (Table, Reply) {
    if TrimSpace(requestID) == "" then (t, Failure(InvalidArgument))
    else
      match Validated(json, source)
      case Rejected(code) => (t, Failure(code))
      case Accepted(m) => Installed(json, t, TrimSpace(requestID), m, Successor(t.revision))
  }

  datatype Snapshot = Snapshot(version: int, revision: nat, entries: seq<Entry>)

  ghost function Imported(json: Json, t: Table, requestID: string, s: Snapshot): (Table, Reply) {
    if s.version != SNAPSHOT_VERSION then (t, Failure(InvalidArgument))
    else
      match Validated(json, s.entries)
      case Rejected(code) => (t, Failure(code))
      case Accepted(m) =>
        if TrimSpace(requestID) == "" then (t, Failure(InvalidArgument))
        else Installed(json, t, TrimSpace(requestID), m, s.revision)
  }

  datatype Lookup = Found(entry: Entry) | Missing(code: Code)

  // The names of a map, collected in the order of the map and sorted.
  method SortedNames(m: Entries) returns (names: seq<string>)
    ensures names == SortedKeys(m.Keys)
  {
    var unsorted: seq<string> := [];
    var todo := m.Keys;
    while todo != {}
      invariant todo <= m.Keys
      invariant forall i, j :: 0 <= i < j < |unsorted| ==> unsorted[i] != unsorted[j]
      invariant forall k :: k in unsorted <==> k in m.Keys - todo
      decreases |todo|
    {
      var k := Next(todo);
      assert k !in unsorted;
      unsorted, todo := unsorted + [k], todo - {k};
    }
    names := SortStrings(unsorted);
    SortStringsLists(unsorted, m.Keys);
    ListingUnique(names, SortedKeys(m.Keys), m.Keys);
  }

  method ListEntries(m: Entries) returns (listed: seq<Entry>)
    ensures listed == ListingOf(m)
  {
    var names := SortedNames(m);
    listed := [];
    for i := 0 to |names|
      invariant |listed| == i && forall j :: 0 <= j < i ==> listed[j] == m[names[j]]
    {
      assert names[i] in names;
      listed := listed + [m[names[i]]];
    }
  }

  method CheckEntry(json: Json, entries: Entries, source: Entry) returns (fault: Option<Code>, entry: Entry)
    ensures fault == Fault(json, entries.Keys, source) && (fault == None ==> entry == Normal(source))
  {
    entry := source.(name := TrimSpace(source.name));
    entry := entry.(game := TrimSpace(entry.game));
    if entry.name == "" || entry.game == "" {
      return Some(InvalidArgument), entry;
    }
    if entry.name in entries {
      return Some(Conflict), entry;
    }
    if entry.config == "" {
      entry := entry.(config := "{}");
    }
    if !json.valid(entry.config) || (entry.runtime != "" && !json.valid(entry.runtime)) {
      return Some(InvalidArgument), entry;
    }
    fault := None;
  }

  // validateEntries: the entries by name, and the fingerprint of their canonical listing.
  method ValidateEntries(json: Json, source: seq<Entry>) returns (v: Validation, fingerprint: Fingerprint)
    ensures v == Validated(json, source)
    ensures v.Accepted? ==> fingerprint == FingerprintOf(json, v.entries)
  {
    var entries: Entries := map[];
    fingerprint := [];
    var i := 0;
    while i < |source|
      invariant 0 <= i <= |source|
      invariant Collected(json, map[], source) == Collected(json, entries, source[i..])
    {
      var fault, entry := CheckEntry(json, entries, source[i]);
      if fault.Some? {
        return Rejected(fault.value), [];
      }
      assert source[i..][1..] == source[i + 1..];
      entries := entries[entry.name := entry];
      i := i + 1;
    }
    var canonical := ListEntries(entries);
    if exists k :: k in entries && entries[k].cpuLimit.None? {
      return Rejected(Internal), [];
    }
    return Accepted(entries), Wires(json, canonical);
  }

  class State {
    const json: Json
    var revision: nat
    var entries: Entries
    var requests: map<string, Fingerprint>

    constructor (json: Json)
      ensures View() == Table(0, map[], map[]) && this.json == json
    {
      this.json := json;
      revision, entries, requests := 0, map[], map[];
    }

    function View(): Table
      reads this
    {
      Table(revision, entries, requests)
    }

    method List() returns (reply: Reply)
      ensures reply == CatalogOf(View())
    {
      var listed := ListEntries(entries);
      reply := Listing(revision, listed);
    }

    method Replace(requestID: string, source: seq<Entry>) returns (reply: Reply)
      modifies this
      ensures (View(), reply) == Replaced(json, old(View()), requestID, source)
    {
      var id := TrimSpace(requestID);
      if id == "" {
        return Failure(InvalidArgument);
      }
      var v, fingerprint := ValidateEntries(json, source);
      if v.Rejected? {
        return Failure(v.code);
      }
      if id in requests {
        if requests[id] != fingerprint {
          return Failure(Conflict);
        }
        reply := List();
        return;
      }
      entries := v.entries;
      revision := Successor(revision);
      requests := requests[id := fingerprint];
      reply := List();
    }

    method Get(name: string) returns (r: Lookup)
      ensures r == if TrimSpace(name) == "" then Missing(InvalidArgument)
                   else if TrimSpace(name) in entries then Found(entries[TrimSpace(name)])
                   else Missing(NotFound)
    {
      var n := TrimSpace(name);
      if n == "" {
        return Missing(InvalidArgument);
      }
      if n !in entries {
        return Missing(NotFound);
      }
      r := Found(entries[n]);
    }

    method Export() returns (s: Snapshot)
      ensures s == Snapshot(SNAPSHOT_VERSION, revision, ListingOf(entries))
    {
      var listed := ListEntries(entries);
      s := Snapshot(SNAPSHOT_VERSION, revision, listed);
    }

    method Import(requestID: string, s: Snapshot) returns (reply: Reply)
      modifies this
      ensures (View(), reply) == Imported(json, old(View()), requestID, s)
    {
      if s.version != SNAPSHOT_VERSION {
        return Failure(InvalidArgument);
      }
      var v, fingerprint := ValidateEntries(json, s.entries);
      if v.Rejected? {
        return Failure(v.code);
      }
      var id := TrimSpace(requestID);
      if id == "" {
        return Failure(InvalidArgument);
      }
      if id in requests {
        if requests[id] != fingerprint {
          return Failure(Conflict);
        }
        reply := List();
        return;
      }
      entries := v.entries;
      revision := s.revision;
      requests := requests[id := fingerprint];
      reply := List();
    }
  }
}
