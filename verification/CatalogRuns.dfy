// Catalog validation is a normal form, and what the request ledger keeps over runs.
module CatalogRuns {
  import opened Text
  import opened Catalog

  // ---------- what validation accepts ----------

  function Names(source: seq<Entry>): set<string> {
    set e | e in source :: TrimSpace(e.name)
  }

  // Nothing is wrong with the entry by itself.
  predicate WellFormed(json: Json, e: Entry) {
    Fault(json, {}, e) == None
  }

  // No two entries share a trimmed name.
  predicate Distinct(source: seq<Entry>) {
    |Names(source)| == |source|
  }

  predicate Places(m: Entries, source: seq<Entry>) {
    forall e :: e in source ==> TrimSpace(e.name) in m && m[TrimSpace(e.name)] == Normal(e)
  }

  lemma {:induction false} NamesAtMost(source: seq<Entry>)
    ensures |Names(source)| <= |source|
  {
    if source == [] {
      assert Names(source) == {};
    } else {
      NamesAtMost(source[1..]);
      assert Names(source) == {TrimSpace(source[0].name)} + Names(source[1..]);
    }
  }

  lemma DistinctStep(source: seq<Entry>)
    requires source != []
    ensures Names(source) == {TrimSpace(source[0].name)} + Names(source[1..])
    ensures Distinct(source) <==> TrimSpace(source[0].name) !in Names(source[1..]) && Distinct(source[1..])
  {
    NamesAtMost(source[1..]);
    assert Names(source) == {TrimSpace(source[0].name)} + Names(source[1..]);
  }

  predicate AllWellFormed(json: Json, source: seq<Entry>) {
    forall e :: e in source ==> WellFormed(json, e)
  }

  predicate Admissible(json: Json, taken: set<string>, source: seq<Entry>) {
    AllWellFormed(json, source) && Distinct(source) && Names(source) !! taken
  }

  lemma FaultIff(json: Json, taken: set<string>, e: Entry)
    ensures Fault(json, taken, e) == None <==> WellFormed(json, e) && TrimSpace(e.name) !in taken
  {
  }

  lemma AdmissibleStep(json: Json, taken: set<string>, source: seq<Entry>)
    requires source != []
    ensures Admissible(json, taken, source) <==>
            Fault(json, taken, source[0]) == None && Admissible(json, taken + {TrimSpace(source[0].name)}, source[1..])
  {
    DistinctStep(source);
    FaultIff(json, taken, source[0]);
    hide Fault, WellFormed, TrimSpace, Distinct, Names;
    assert forall x :: x in source <==> x == source[0] || x in source[1..];
  }

  // The loop accepts exactly when every entry is well-formed, their names are distinct and none of
  // them is taken.
  lemma {:induction false} CollectedIff(json: Json, so: Entries, source: seq<Entry>)
    ensures Collected(json, so, source).Accepted? <==> Admissible(json, so.Keys, source)
    decreases |source|
  {
    if source == [] {
      assert Names(source) == {};
    } else {
      AdmissibleStep(json, so.Keys, source);
      hide Admissible, Fault, TrimSpace;
      if Fault(json, so.Keys, source[0]) == None {
        var so1 := so[Normal(source[0]).name := Normal(source[0])];
        assert so1.Keys == so.Keys + {TrimSpace(source[0].name)};
        CollectedIff(json, so1, source[1..]);
      }
    }
  }

  predicate Kept(so: Entries, m: Entries) {
    forall k :: k in so ==> k in m && m[k] == so[k]
  }

  lemma PlacesStep(m: Entries, source: seq<Entry>)
    requires source != [] && Places(m, source[1..])
    requires TrimSpace(source[0].name) in m && m[TrimSpace(source[0].name)] == Normal(source[0])
    ensures Places(m, source)
  {
    assert forall x :: x in source <==> x == source[0] || x in source[1..];
  }

  lemma KeptStep(so: Entries, k: string, e: Entry, m: Entries)
    requires k !in so && Kept(so[k := e], m)
    ensures Kept(so, m) && k in m && m[k] == e
  {
    assert k in so[k := e];
    assert forall x :: x in so ==> x in so[k := e];
  }

  lemma CollectedStep(json: Json, so: Entries, source: seq<Entry>)
    requires source != [] && Collected(json, so, source).Accepted?
    ensures var name := TrimSpace(source[0].name);
            name !in so && Collected(json, so, source) == Collected(json, so[name := Normal(source[0])], source[1..])
  {
    FaultIff(json, so.Keys, source[0]);
  }

  // It then has one normal entry for each name, and keeps what it had.
  lemma {:induction false} CollectedPlaces(json: Json, so: Entries, source: seq<Entry>)
    requires Collected(json, so, source).Accepted?
    ensures var m := Collected(json, so, source).entries;
            m.Keys == so.Keys + Names(source) && Places(m, source) && Kept(so, m)
    decreases |source|
  {
    if source == [] {
      assert Names(source) == {};
    } else {
      var name := TrimSpace(source[0].name);
      DistinctStep(source);
      CollectedStep(json, so, source);
      hide *;
      CollectedPlaces(json, so[name := Normal(source[0])], source[1..]);
      var m := Collected(json, so, source).entries;
      KeptStep(so, name, Normal(source[0]), m);
      PlacesStep(m, source);
    }
  }

  // An entry is fine by itself if its trimmed name and game are not empty, its JSON texts are valid,
  // where an empty runtime is none and an empty config is "{}".
  lemma WellFormedIff(json: Json, e: Entry)
    ensures WellFormed(json, e) <==>
            && TrimSpace(e.name) != "" && TrimSpace(e.game) != ""
            && json.valid(if e.config == "" then "{}" else e.config)
            && (e.runtime == "" || json.valid(e.runtime))
    ensures Normal(e) == Entry(TrimSpace(e.name), TrimSpace(e.game), e.caption, e.engine, e.cpuLimit, e.memoryLimit,
                               if e.config == "" then "{}" else e.config, e.runtime)
  {
  }

  // Accepted are lists of such entries with encodable limits and distinct names; each entry then
  // stands under its name, trimmed and with its config filled in.
  lemma ValidatedIff(json: Json, source: seq<Entry>)
    ensures Validated(json, source).Accepted? <==>
            (forall e :: e in source ==> WellFormed(json, e) && e.cpuLimit.Some?) && Distinct(source)
    ensures Validated(json, source).Accepted? ==>
              Validated(json, source).entries.Keys == Names(source) && Places(Validated(json, source).entries, source)
  {
    CollectedIff(json, map[], source);
    hide Fault, WellFormed, TrimSpace;
    var v := Collected(json, map[], source);
    if v.Accepted? {
      CollectedPlaces(json, map[], source);
      if Encodable(v.entries) {
        forall e | e in source
          ensures e.cpuLimit.Some?
        {
          assert v.entries[TrimSpace(e.name)] == Normal(e);
        }
      } else {
        var k :| k in v.entries && v.entries[k].cpuLimit.None?;
        var e :| e in source && TrimSpace(e.name) == k;
        assert v.entries[k] == Normal(e);
      }
    }
  }

  // What stands in the way of a list is its first faulty entry: a name that an entry before it has is
  // a conflict, unless name or game is empty; anything else is an invalid argument.
  ghost predicate FaultyAt(json: Json, taken: set<string>, source: seq<Entry>, i: nat, code: Code) {
    && i < |source| && Admissible(json, taken, source[..i])
    && !(WellFormed(json, source[i]) && TrimSpace(source[i].name) !in taken + Names(source[..i]))
    && (code == if TrimSpace(source[i].name) != "" && TrimSpace(source[i].game) != "" &&
                   TrimSpace(source[i].name) in taken + Names(source[..i])
                then Conflict else InvalidArgument)
  }

  lemma PrefixNames(taken: set<string>, source: seq<Entry>, j: nat)
    requires source != [] && j < |source[1..]|
    ensures taken + Names(source[..j + 1]) == taken + {TrimSpace(source[0].name)} + Names(source[1..][..j])
  {
    assert source[..j + 1][0] == source[0] && source[..j + 1][1..] == source[1..][..j];
    DistinctStep(source[..j + 1]);
    hide TrimSpace, Names;
  }

  lemma AdmissiblePrefix(json: Json, taken: set<string>, source: seq<Entry>, j: nat)
    requires source != [] && j < |source[1..]| && Fault(json, taken, source[0]) == None
    requires Admissible(json, taken + {TrimSpace(source[0].name)}, source[1..][..j])
    ensures Admissible(json, taken, source[..j + 1])
  {
    hide Fault, TrimSpace, Admissible;
    assert source[..j + 1][0] == source[0] && source[..j + 1][1..] == source[1..][..j];
    AdmissibleStep(json, taken, source[..j + 1]);
  }

  lemma FaultyLater(json: Json, taken: set<string>, source: seq<Entry>, j: nat, code: Code)
    requires source != [] && Fault(json, taken, source[0]) == None
    requires FaultyAt(json, taken + {TrimSpace(source[0].name)}, source[1..], j, code)
    ensures FaultyAt(json, taken, source, j + 1, code)
  {
    AdmissiblePrefix(json, taken, source, j);
    PrefixNames(taken, source, j);
    hide Fault, WellFormed, TrimSpace, Admissible, Names;
    assert source[1..][j] == source[j + 1];
  }

  lemma {:induction false} CollectedRejects(json: Json, so: Entries, source: seq<Entry>) returns (i: nat)
    requires Collected(json, so, source).Rejected?
    ensures FaultyAt(json, so.Keys, source, i, Collected(json, so, source).code)
    decreases |source|
  {
    if Fault(json, so.Keys, source[0]).Some? {
      i := 0;
      FaultIff(json, so.Keys, source[0]);
      assert source[..0] == [] && Names([]) == {};
      assert Admissible(json, so.Keys, []);
      assert so.Keys + {} == so.Keys;
    } else {
      var so1 := so[Normal(source[0]).name := Normal(source[0])];
      assert so1.Keys == so.Keys + {TrimSpace(source[0].name)};
      var j := CollectedRejects(json, so1, source[1..]);
      FaultyLater(json, so.Keys, source, j, Collected(json, so, source).code);
      i := j + 1;
    }
  }

  // A list that is not accepted is refused for its first faulty entry or, if there is none, because
  // some limit cannot be encoded.
  lemma RefusalTells(json: Json, source: seq<Entry>) returns (i: nat)
    requires Validated(json, source).Rejected?
    ensures || FaultyAt(json, {}, source, i, Validated(json, source).code)
            || (Validated(json, source).code == Internal && Admissible(json, {}, source) &&
                exists e :: e in source && e.cpuLimit.None?)
  {
    i := 0;
    CollectedIff(json, map[], source);
    ValidatedIff(json, source);
    var none: Entries := map[];
    assert none.Keys == {};
    if Collected(json, map[], source).Rejected? {
      i := CollectedRejects(json, map[], source);
    }
    hide Fault, WellFormed, TrimSpace, FaultyAt, Distinct;
  }

  lemma PlacedMapsEqual(a: Entries, b: Entries, source: seq<Entry>)
    requires a.Keys == Names(source) == b.Keys && Places(a, source) && Places(b, source)
    ensures a == b
  {
    forall k | k in a
      ensures a[k] == b[k]
    {
      var e :| e in source && TrimSpace(e.name) == k;
    }
  }

  // The order of the entries does not matter.
  lemma OrderInsensitive(json: Json, a: seq<Entry>, b: seq<Entry>)
    requires multiset(a) == multiset(b)
    ensures Validated(json, a).Accepted? <==> Validated(json, b).Accepted?
    ensures Validated(json, a).Accepted? ==> Validated(json, a) == Validated(json, b)
  {
    forall e
      ensures e in a <==> e in b
    {
      assert e in a <==> multiset(a)[e] > 0;
      assert e in b <==> multiset(b)[e] > 0;
    }
    assert |a| == |multiset(a)| == |b|;
    assert Names(a) == Names(b);
    ValidatedIff(json, a);
    ValidatedIff(json, b);
    if Validated(json, a).Accepted? {
      PlacedMapsEqual(Validated(json, a).entries, Validated(json, b).entries, a);
    }
  }

  // ---------- the normal form ----------

  // What validation makes: every entry is well-formed, encodable, its own normal form, and stands
  // under its own name.
  ghost predicate Canonical(json: Json, m: Entries) {
    forall k :: k in m ==> WellFormed(json, m[k]) && m[k].cpuLimit.Some? && Normal(m[k]) == m[k] && m[k].name == k
  }

  lemma NormalIsNormal(json: Json, e: Entry)
    requires WellFormed(json, e)
    ensures Normal(Normal(e)) == Normal(e) && WellFormed(json, Normal(e))
  {
    TrimSpaceIdempotent(e.name);
    TrimSpaceIdempotent(e.game);
  }

  lemma ValidatedIsCanonical(json: Json, source: seq<Entry>)
    requires Validated(json, source).Accepted?
    ensures Canonical(json, Validated(json, source).entries)
  {
    ValidatedIff(json, source);
    var m := Validated(json, source).entries;
    forall k | k in m
      ensures WellFormed(json, m[k]) && m[k].cpuLimit.Some? && Normal(m[k]) == m[k] && m[k].name == k
    {
      var e :| e in source && TrimSpace(e.name) == k;
      NormalIsNormal(json, e);
    }
  }

  lemma {:induction false} DistinctKeysCount(keys: seq<string>, s: seq<Entry>)
    requires StrictlySorted(keys) && |s| == |keys| && forall i :: 0 <= i < |keys| ==> TrimSpace(s[i].name) == keys[i]
    ensures Distinct(s)
    decreases |s|
  {
    if s == [] {
      assert Names(s) == {};
    } else {
      DistinctStep(s);
      forall i | 0 <= i < |s[1..]|
        ensures TrimSpace(s[1..][i].name) == keys[1..][i] && keys[1..][i] != keys[0]
      {
        LessTotal(keys[0], keys[0]);
        assert Less(keys[0], keys[i + 1]);
      }
      DistinctKeysCount(keys[1..], s[1..]);
    }
  }

  // Each entry is listed, under its name's place.
  lemma ListingHolds(json: Json, m: Entries)
    requires Canonical(json, m)
    ensures forall i :: 0 <= i < |ListingOf(m)| ==> ListingOf(m)[i].name == SortedKeys(m.Keys)[i] && ListingOf(m)[i].name in m &&
                                                     m[ListingOf(m)[i].name] == ListingOf(m)[i]
    ensures forall k :: k in m ==> m[k] in ListingOf(m)
  {
    hide WellFormed, StrictlySorted;
    var keys, s := SortedKeys(m.Keys), ListingOf(m);
    assert forall i :: 0 <= i < |keys| ==> keys[i] in keys && s[i] == m[keys[i]];
    forall k | k in m
      ensures m[k] in s
    {
      assert k in keys;
      var i :| 0 <= i < |keys| && keys[i] == k;
      assert s[i] == m[k];
    }
  }

  lemma CountsDistinct(json: Json, m: Entries)
    requires Canonical(json, m)
    ensures Distinct(ListingOf(m))
  {
    ListingHolds(json, m);
    DistinctKeysCount(SortedKeys(m.Keys), ListingOf(m));
  }

  lemma ListingNames(json: Json, m: Entries)
    requires Canonical(json, m)
    ensures Names(ListingOf(m)) == m.Keys && Places(m, ListingOf(m)) && Distinct(ListingOf(m))
    ensures forall e :: e in ListingOf(m) ==> WellFormed(json, e) && e.cpuLimit.Some?
  {
    var s := ListingOf(m);
    ListingHolds(json, m);
    CountsDistinct(json, m);
    hide StrictlySorted, WellFormed, TrimSpace, Distinct, ListingOf;
    forall e | e in s
      ensures e.name in m && m[e.name] == e && TrimSpace(e.name) == e.name
    {
      var i :| 0 <= i < |s| && s[i] == e;
    }
    forall k | k in m
      ensures k in Names(s)
    {
      assert m[k] in s && TrimSpace(m[k].name) == k;
    }
  }

  // Validation is idempotent on its own output: what it lists, it accepts as it is.
  lemma ListingValidatesToItself(json: Json, m: Entries)
    requires Canonical(json, m)
    ensures Validated(json, ListingOf(m)) == Accepted(m)
  {
    hide *;
    ListingNames(json, m);
    ValidatedIff(json, ListingOf(m));
    PlacedMapsEqual(Validated(json, ListingOf(m)).entries, m, ListingOf(m));
  }

  lemma ValidationIdempotent(json: Json, source: seq<Entry>)
    requires Validated(json, source).Accepted?
    ensures Validated(json, ListingOf(Validated(json, source).entries)) == Validated(json, source)
  {
    ValidatedIsCanonical(json, source);
    ListingValidatesToItself(json, Validated(json, source).entries);
  }

  // Listings are strictly sorted by name, and each entry of the catalog is listed.
  lemma ListingSorted(json: Json, m: Entries)
    requires Canonical(json, m)
    ensures forall i, j :: 0 <= i < j < |ListingOf(m)| ==> Less(ListingOf(m)[i].name, ListingOf(m)[j].name)
    ensures forall k :: k in m ==> m[k] in ListingOf(m)
    ensures |ListingOf(m)| == |m|
  {
    ListingHolds(json, m);
  }

  // The fingerprint tells the names and what stands under each.
  lemma FingerprintTells(json: Json, m: Entries)
    requires Canonical(json, m)
    ensures var f := FingerprintOf(json, m);
            && |f| == |m|
            && (forall i :: 0 <= i < |f| ==> f[i].name in m && f[i] == Wire(json, m[f[i].name]))
            && (forall k :: k in m ==> Wire(json, m[k]) in f)
  {
    hide WellFormed, StrictlySorted;
    ListingHolds(json, m);
    var s, f := ListingOf(m), FingerprintOf(json, m);
    forall k | k in m
      ensures Wire(json, m[k]) in f
    {
      var i :| 0 <= i < |s| && s[i] == m[k];
      assert f[i] == Wire(json, m[k]);
    }
  }

  lemma SameFingerprintIncludes(json: Json, a: Entries, b: Entries, k: string)
    requires Canonical(json, a) && Canonical(json, b) && FingerprintOf(json, a) == FingerprintOf(json, b) && k in a
    ensures k in b && Wire(json, a[k]) == Wire(json, b[k])
  {
    hide WellFormed, StrictlySorted, FingerprintOf;
    FingerprintTells(json, a);
    FingerprintTells(json, b);
    assert Wire(json, a[k]).name == k;
  }

  // The same but for the layout of the JSON texts; an empty runtime differs from any other.
  predicate SameEntry(json: Json, e: Entry, f: Entry) {
    && e.name == f.name && e.game == f.game && e.caption == f.caption && e.engine == f.engine
    && e.cpuLimit == f.cpuLimit && e.memoryLimit == f.memoryLimit
    && json.compact(e.config) == json.compact(f.config)
    && (if e.runtime == "" || f.runtime == "" then e.runtime == f.runtime else json.compact(e.runtime) == json.compact(f.runtime))
  }

  predicate SameUpToLayout(json: Json, a: Entries, b: Entries) {
    a.Keys == b.Keys && forall k :: k in a ==> SameEntry(json, a[k], b[k])
  }

  lemma SameEntryIff(json: Json, e: Entry, f: Entry)
    ensures SameEntry(json, e, f) <==> Wire(json, e) == Wire(json, f)
  {
  }

  lemma SameFingerprintSameWires(json: Json, a: Entries, b: Entries)
    requires Canonical(json, a) && Canonical(json, b) && FingerprintOf(json, a) == FingerprintOf(json, b)
    ensures SameUpToLayout(json, a, b)
  {
    hide FingerprintOf, Canonical, Wire, SameEntry;
    forall k
      ensures k in a <==> k in b
      ensures k in a ==> SameEntry(json, a[k], b[k])
    {
      if k in a {
        SameFingerprintIncludes(json, a, b, k);
        SameEntryIff(json, a[k], b[k]);
      }
      if k in b {
        SameFingerprintIncludes(json, b, a, k);
      }
    }
  }

  lemma WiresEqual(json: Json, s: seq<Entry>, t: seq<Entry>)
    requires |s| == |t| && forall i :: 0 <= i < |s| ==> Wire(json, s[i]) == Wire(json, t[i])
    ensures Wires(json, s) == Wires(json, t)
  {
    hide Wire;
  }

  lemma SameWiresSameFingerprint(json: Json, a: Entries, b: Entries)
    requires SameUpToLayout(json, a, b)
    ensures FingerprintOf(json, a) == FingerprintOf(json, b)
  {
    hide StrictlySorted, Wire, SameEntry;
    var keys := SortedKeys(a.Keys);
    forall i | 0 <= i < |keys|
      ensures Wire(json, ListingOf(a)[i]) == Wire(json, ListingOf(b)[i])
    {
      assert keys[i] in keys;
      SameEntryIff(json, a[keys[i]], b[keys[i]]);
    }
    WiresEqual(json, ListingOf(a), ListingOf(b));
  }

  // Two catalogs have one fingerprint exactly when they are equal up to the layout of their JSON.
  lemma FingerprintIff(json: Json, a: Entries, b: Entries)
    requires Canonical(json, a) && Canonical(json, b)
    ensures FingerprintOf(json, a) == FingerprintOf(json, b) <==> SameUpToLayout(json, a, b)
  {
    hide *;
    if FingerprintOf(json, a) == FingerprintOf(json, b) {
      SameFingerprintSameWires(json, a, b);
    }
    if SameUpToLayout(json, a, b) {
      SameWiresSameFingerprint(json, a, b);
    }
  }
}
