// pulp-cell/creation_core.go, expandCreateVolumes: host paths are rewritten in the volume map while
// the map is being visited.
module Volumes {
  import opened Ownership

  const PLACEHOLDER := "{{SERVER_ID}}"

  predicate Contains(s: string) {
    s != "" && (PLACEHOLDER <= s || Contains(s[1..]))
  }

  // strings.ReplaceAll of the placeholder.
  function Expanded(s: string, id: string): string {
    if s == "" then ""
    else if PLACEHOLDER <= s then id + Expanded(s[|PLACEHOLDER|..], id)
    else [s[0]] + Expanded(s[1..], id)
  }

  lemma {:induction false} PlainStays(s: string, id: string)
    requires !Contains(s)
    ensures Expanded(s, id) == s
  {
    if s != "" {
      PlainStays(s[1..], id);
    }
  }

  // The placeholder stands at this place.
  predicate StandsAt(s: string, i: nat) {
    i + 13 <= |s| && s[i..i + 13] == "{{SERVER_ID}}"
  }

  lemma StandsOneOn(s: string, i: nat)
    requires s != "" && i > 0
    ensures StandsAt(s, i) <==> StandsAt(s[1..], i - 1)
  {
    if i + 13 <= |s| {
      assert s[i..i + 13] == s[1..][i - 1..i + 12];
    }
  }

  lemma {:induction false} ContainsIff(s: string)
    ensures Contains(s) <==> exists i: nat :: StandsAt(s, i)
  {
    if s != "" {
      ContainsIff(s[1..]);
      assert PLACEHOLDER <= s <==> StandsAt(s, 0);
      hide StandsAt;
      if i: nat :| StandsAt(s[1..], i) {
        StandsOneOn(s, i + 1);
      }
      if i: nat :| i > 0 && StandsAt(s, i) {
        StandsOneOn(s, i);
      }
    }
  }

  lemma Reassociate(c: string, a: string, id: string, rest: string)
    ensures c + (a + id + rest) == c + a + id + rest
  {
  }

  lemma ExpandsStep(s: string, id: string)
    requires s != ""
    ensures Expanded(s, id) == if StandsAt(s, 0) then id + Expanded(s[13..], id) else [s[0]] + Expanded(s[1..], id)
    ensures StandsAt(s, 0) ==> |s| >= 13
  {
    assert PLACEHOLDER <= s <==> StandsAt(s, 0);
  }

  // The first placeholder is replaced by the ID, and then those in what follows it; without any the
  // path stays as it is.
  lemma {:induction false} ExpandsFirst(s: string, id: string, i: nat)
    requires i + 13 <= |s| && StandsAt(s, i) && forall j: nat :: j < i ==> !StandsAt(s, j)
    ensures Expanded(s, id) == s[..i] + id + Expanded(s[i + 13..], id)
  {
    hide *;
    ExpandsStep(s, id);
    if i == 0 {
      assert s[..0] + id == id;
    } else {
      assert !StandsAt(s, 0);
      StandsOneOn(s, i);
      forall j: nat | j < i - 1
        ensures !StandsAt(s[1..], j)
      {
        StandsOneOn(s, j + 1);
      }
      ExpandsFirst(s[1..], id, i - 1);
      assert s[1..][i + 12..] == s[i + 13..] && [s[0]] + s[1..][..i - 1] == s[..i];
      Reassociate([s[0]], s[1..][..i - 1], id, Expanded(s[i + 13..], id));
    }
  }

  type Mounts = map<string, string>

  // ---------- visits ----------

  // One visit to a host path; a path that is gone by then is not offered.
  function Visited(m: Mounts, path: string, id: string): Mounts {
    if path in m && Contains(path) then (m - {path})[Expanded(path, id) := m[path]] else m
  }

  function VisitedAll(m: Mounts, order: seq<string>, id: string): Mounts {
    if order == [] then m else Visited(VisitedAll(m, order[..|order| - 1], id), order[|order| - 1], id)
  }

  // A visit offers every path that was there at the start; it may offer paths put in meanwhile as
  // well, and in any order.
  predicate Covers(order: seq<string>, volumes: Mounts) {
    forall p :: p in volumes ==> p in order
  }

  lemma VisitedOneMore(m: Mounts, order: seq<string>, path: string, id: string)
    ensures VisitedAll(m, order + [path], id) == Visited(VisitedAll(m, order, id), path, id)
  {
    assert (order + [path])[..|order|] == order;
  }

  // Only its own visit takes a path away.
  lemma {:induction false} UnvisitedStays(volumes: Mounts, order: seq<string>, id: string, path: string)
    requires path in volumes && path !in order
    ensures path in VisitedAll(volumes, order, id)
  {
    if order != [] {
      UnvisitedStays(volumes, order[..|order| - 1], id, path);
    }
  }

  // ---------- what the visit leaves ----------

  // No expanded path holds the placeholder again, be it from the server ID or from where the ID
  // meets its surroundings.
  predicate PlainExpansions(volumes: Mounts, id: string) {
    forall p :: p in volumes ==> !Contains(Expanded(p, id))
  }

  // A path of volumes with the placeholder that expands to q.
  predicate ExpandsTo(volumes: Mounts, id: string, p: string, q: string) {
    p in volumes && Contains(p) && Expanded(p, id) == q
  }

  // The mount at q comes from some placeholder path that expands to q or, if there is none, is that
  // of the plain path q.
  ghost predicate MountFrom(volumes: Mounts, id: string, q: string, mount: string) {
    || (exists p :: ExpandsTo(volumes, id, p, q) && volumes[p] == mount)
    || (q in volumes && volumes[q] == mount && forall p :: !ExpandsTo(volumes, id, p, q))
  }

  // The paths are exactly the expansions, each with such a mount.
  ghost predicate IsExpansion(volumes: Mounts, id: string, m: Mounts) {
    && (forall p :: p in volumes ==> Expanded(p, id) in m)
    && (forall q :: q in m ==> !Contains(q) && MountFrom(volumes, id, q, m[q]))
  }

  predicate PathsSoFar(volumes: Mounts, m: Mounts, order: seq<string>, id: string) {
    && (forall p :: p in volumes ==> if p in order then Expanded(p, id) in m else p in m)
    && (forall p :: p in volumes && Contains(p) && p !in order ==> p in m && m[p] == volumes[p])
    && (forall q :: q in m && Contains(q) ==> q in volumes && q !in order)
  }

  ghost predicate PlainMount(volumes: Mounts, m: Mounts, order: seq<string>, id: string, q: string)
    requires q in m
  {
    || (exists p :: p in order && ExpandsTo(volumes, id, p, q) && volumes[p] == m[q])
    || (q in volumes && volumes[q] == m[q] && forall p :: p in order ==> !ExpandsTo(volumes, id, p, q))
  }

  ghost predicate MountsSoFar(volumes: Mounts, m: Mounts, order: seq<string>, id: string) {
    forall q :: q in m && !Contains(q) ==> PlainMount(volumes, m, order, id, q)
  }

  // In the middle of a visit.
  ghost predicate Partly(volumes: Mounts, m: Mounts, order: seq<string>, id: string) {
    PathsSoFar(volumes, m, order, id) && MountsSoFar(volumes, m, order, id)
  }

  lemma PassingKeepsPaths(volumes: Mounts, m: Mounts, order: seq<string>, id: string, path: string)
    requires PathsSoFar(volumes, m, order, id) && (path !in m || !Contains(path))
    ensures PathsSoFar(volumes, m, order + [path], id)
  {
    if !Contains(path) {
      PlainStays(path, id);
    }
    hide Contains, Expanded;
  }

  lemma PassingKeepsMounts(volumes: Mounts, m: Mounts, order: seq<string>, id: string, path: string)
    requires MountsSoFar(volumes, m, order, id) && (!Contains(path) || path !in volumes || path in order)
    ensures MountsSoFar(volumes, m, order + [path], id)
  {
    hide Contains, Expanded;
    forall q | q in m && !Contains(q)
      ensures PlainMount(volumes, m, order + [path], id, q)
    {
      assert PlainMount(volumes, m, order, id, q);
      if p :| p in order && ExpandsTo(volumes, id, p, q) && volumes[p] == m[q] {
        assert p in order + [path];
      }
    }
  }

  lemma PassingKeepsPartly(volumes: Mounts, m: Mounts, order: seq<string>, id: string, path: string)
    requires Partly(volumes, m, order, id) && (path !in m || !Contains(path))
    ensures Partly(volumes, m, order + [path], id)
  {
    hide Contains, Expanded, MountsSoFar;
    PassingKeepsPaths(volumes, m, order, id, path);
    PassingKeepsMounts(volumes, m, order, id, path);
  }

  lemma ExpandingKeepsPaths(volumes: Mounts, m: Mounts, order: seq<string>, id: string, path: string)
    requires PathsSoFar(volumes, m, order, id) && PlainExpansions(volumes, id) && path in m && Contains(path)
    ensures PathsSoFar(volumes, Visited(m, path, id), order + [path], id)
  {
    hide Contains, Expanded;
    assert !Contains(Expanded(path, id));
  }

  lemma ExpandingKeepsMounts(volumes: Mounts, m: Mounts, order: seq<string>, id: string, path: string)
    requires MountsSoFar(volumes, m, order, id) && path in m && path in volumes && Contains(path) && m[path] == volumes[path]
    ensures MountsSoFar(volumes, Visited(m, path, id), order + [path], id)
  {
    hide Contains, Expanded;
    var after, e := Visited(m, path, id), Expanded(path, id);
    forall q | q in after && !Contains(q)
      ensures PlainMount(volumes, after, order + [path], id, q)
    {
      if q == e {
        assert path in order + [path] && ExpandsTo(volumes, id, path, e) && volumes[path] == after[q];
      } else {
        assert PlainMount(volumes, m, order, id, q);
        if p :| p in order && ExpandsTo(volumes, id, p, q) && volumes[p] == m[q] {
          assert p in order + [path];
        }
      }
    }
  }

  lemma ExpandingKeepsPartly(volumes: Mounts, m: Mounts, order: seq<string>, id: string, path: string)
    requires Partly(volumes, m, order, id) && PlainExpansions(volumes, id) && path in m && Contains(path)
    ensures Partly(volumes, Visited(m, path, id), order + [path], id)
  {
    ExpandingKeepsPaths(volumes, m, order, id, path);
    ExpandingKeepsMounts(volumes, m, order, id, path);
  }

  lemma {:induction false} VisitsKeepPartly(volumes: Mounts, order: seq<string>, id: string)
    requires PlainExpansions(volumes, id)
    ensures Partly(volumes, VisitedAll(volumes, order, id), order, id)
  {
    hide Contains, Expanded;
    if order != [] {
      var before, path := order[..|order| - 1], order[|order| - 1];
      VisitsKeepPartly(volumes, before, id);
      var m := VisitedAll(volumes, before, id);
      assert before + [path] == order;
      if path in m && Contains(path) {
        ExpandingKeepsPartly(volumes, m, before, id, path);
      } else {
        PassingKeepsPartly(volumes, m, before, id, path);
      }
    }
  }

  // Whatever the order, the visit leaves an expansion.
  lemma VisitsExpand(volumes: Mounts, order: seq<string>, id: string)
    requires PlainExpansions(volumes, id) && Covers(order, volumes)
    ensures IsExpansion(volumes, id, VisitedAll(volumes, order, id))
  {
    hide Contains, Expanded;
    VisitsKeepPartly(volumes, order, id);
    var m := VisitedAll(volumes, order, id);
    forall q | q in m
      ensures !Contains(q) && MountFrom(volumes, id, q, m[q])
    {
      assert PlainMount(volumes, m, order, id, q);
      forall p | ExpandsTo(volumes, id, p, q)
        ensures p in order
      {
      }
    }
  }

  // The loop, for any way in which the map offers its paths; extra says how often it offers one
  // that has been visited before or was put in meanwhile.
  method ExpandCreateVolumes(volumes: Mounts, id: string, extra: nat) returns (m: Mounts, ghost order: seq<string>)
    ensures Covers(order, volumes) && m == VisitedAll(volumes, order, id)
    ensures PlainExpansions(volumes, id) ==> IsExpansion(volumes, id, m)
  {
    m, order := volumes, [];
    var todo, offers := volumes.Keys, extra;
    while todo * m.Keys != {} || (offers > 0 && m != map[])
      invariant m == VisitedAll(volumes, order, id)
      invariant forall p :: p in volumes ==> p in todo || p in order
      decreases |todo| + offers
    {
      var path;
      if offers > 0 && m != map[] {
        path := Next(m.Keys);
        offers := offers - 1;
      } else {
        path := Next(todo * m.Keys);
      }
      VisitedOneMore(volumes, order, path, id);
      order := order + [path];
      if Contains(path) {
        var containerPath := m[path];
        m := m - {path};
        m := m[Expanded(path, id) := containerPath];
      }
      todo := todo - {path};
    }
    forall p | p in volumes && p !in order
      ensures p in m
    {
      UnvisitedStays(volumes, order, id, p);
    }
    assert forall p :: p in todo && p in m ==> p in todo * m.Keys;
    if PlainExpansions(volumes, id) {
      VisitsExpand(volumes, order, id);
    }
  }

  // ---------- when the order leaves no trace ----------

  // Placeholder paths that expand to one path are mounted at the same place.
  predicate CollisionsAgree(volumes: Mounts, id: string) {
    forall p, q :: p in volumes && q in volumes && Contains(p) && Contains(q) && Expanded(p, id) == Expanded(q, id) ==>
      volumes[p] == volumes[q]
  }

  lemma ExpansionIncludes(volumes: Mounts, id: string, a: Mounts, b: Mounts, q: string)
    requires CollisionsAgree(volumes, id) && IsExpansion(volumes, id, a) && IsExpansion(volumes, id, b) && q in a
    ensures q in b && a[q] == b[q]
  {
    if q in volumes {
      PlainStays(q, id);
    }
    hide Contains, Expanded;
    assert MountFrom(volumes, id, q, a[q]);
    if p :| ExpandsTo(volumes, id, p, q) && volumes[p] == a[q] {
      assert q in b && MountFrom(volumes, id, q, b[q]);
    } else {
      assert q in b && MountFrom(volumes, id, q, b[q]);
    }
  }

  lemma AgreeingExpansionsEqual(volumes: Mounts, id: string, a: Mounts, b: Mounts)
    requires CollisionsAgree(volumes, id) && PlainExpansions(volumes, id)
    requires IsExpansion(volumes, id, a) && IsExpansion(volumes, id, b)
    ensures a == b
  {
    forall q
      ensures q in a <==> q in b
      ensures q in a ==> a[q] == b[q]
    {
      if q in a {
        ExpansionIncludes(volumes, id, a, b, q);
      }
      if q in b {
        ExpansionIncludes(volumes, id, b, a, q);
      }
    }
  }

  // A path with the placeholder keeps its mount while others are visited.
  lemma {:induction false} OthersPass(volumes: Mounts, order: seq<string>, id: string, p: string)
    requires PlainExpansions(volumes, id) && p in volumes && Contains(p) && p !in order
    ensures p in VisitedAll(volumes, order, id) && VisitedAll(volumes, order, id)[p] == volumes[p]
  {
    VisitsKeepPartly(volumes, order, id);
  }

  // The paths but two, and then these two: the one visited last has its mount there.
  lemma LastVisitWins(volumes: Mounts, rest: seq<string>, id: string, p: string, q: string)
    requires PlainExpansions(volumes, id) && p in volumes && q in volumes && p != q && Contains(p) && Contains(q)
    requires Expanded(p, id) == Expanded(q, id) && p !in rest && q !in rest
    ensures var m := VisitedAll(volumes, rest + [p, q], id); Expanded(p, id) in m && m[Expanded(p, id)] == volumes[q]
  {
    hide Contains, Expanded;
    assert rest + [p] + [q] == rest + [p, q];
    assert q !in rest + [p];
    OthersPass(volumes, rest + [p], id, q);
    VisitedOneMore(volumes, rest + [p], q, id);
  }

  lemma {:induction false} SomeListing(keys: set<string>) returns (s: seq<string>)
    ensures forall k :: k in s <==> k in keys
    decreases |keys|
  {
    if keys == {} {
      s := [];
    } else {
      var k :| k in keys;
      var rest := SomeListing(keys - {k});
      s := [k] + rest;
    }
  }

  // ---------- expansions that can be expanded again ----------

  lemma {:induction false} LongerOrShorter(s: string, id: string)
    ensures |id| >= |PLACEHOLDER| ==> |Expanded(s, id)| >= |s|
    ensures |id| <= |PLACEHOLDER| ==> |Expanded(s, id)| <= |s|
  {
    if s == "" {
    } else if PLACEHOLDER <= s {
      LongerOrShorter(s[|PLACEHOLDER|..], id);
    } else {
      LongerOrShorter(s[1..], id);
    }
  }

  lemma {:induction false} PlaceholderStays(s: string)
    ensures Expanded(s, PLACEHOLDER) == s
  {
    if s == "" {
    } else if PLACEHOLDER <= s {
      PlaceholderStays(s[|PLACEHOLDER|..]);
    } else {
      PlaceholderStays(s[1..]);
    }
  }

  // Expanding a placeholder changes the path, unless the server ID is the placeholder itself.
  lemma {:induction false} ExpandingChanges(s: string, id: string)
    requires Contains(s) && id != PLACEHOLDER
    ensures Expanded(s, id) != s
  {
    if PLACEHOLDER <= s {
      var rest := s[|PLACEHOLDER|..];
      LongerOrShorter(rest, id);
      assert |Expanded(s, id)| == |id| + |Expanded(rest, id)|;
      if |id| == |PLACEHOLDER| {
        assert Expanded(s, id)[..|id|] == id && s[..|PLACEHOLDER|] == PLACEHOLDER;
      }
    } else {
      ExpandingChanges(s[1..], id);
      assert Expanded(s, id)[1..] == Expanded(s[1..], id);
    }
  }

  lemma {:induction false} PlaceholderVisitsNothing(volumes: Mounts, order: seq<string>)
    ensures VisitedAll(volumes, order, PLACEHOLDER) == volumes
  {
    if order != [] {
      var path := order[|order| - 1];
      PlaceholderVisitsNothing(volumes, order[..|order| - 1]);
      PlaceholderStays(path);
      hide Contains, Expanded;
      assert Visited(volumes, path, PLACEHOLDER) == volumes;
    }
  }

  // Visiting a path last leaves its expansion; if that can be expanded again, offering it or not
  // makes a difference.
  lemma SecondVisitCounts(volumes: Mounts, id: string, p: string) returns (a: seq<string>, b: seq<string>)
    requires id != PLACEHOLDER && p in volumes && Contains(Expanded(p, id))
    ensures Covers(a, volumes) && Covers(b, volumes) && VisitedAll(volumes, a, id) != VisitedAll(volumes, b, id)
  {
    if !Contains(p) {
      PlainStays(p, id);
    }
    var e := Expanded(p, id);
    var rest := SomeListing(volumes.Keys - {p});
    a := rest + [p];
    b := a + [e];
    ExpandingChanges(e, id);
    UnvisitedStays(volumes, rest, id, p);
    VisitedOneMore(volumes, rest, p, id);
    VisitedOneMore(volumes, a, e, id);
    hide Contains, Expanded, VisitedAll;
    assert e in VisitedAll(volumes, a, id) && e !in VisitedAll(volumes, b, id);
  }

  // ---------- exactly when the order is immaterial ----------

  ghost predicate OrdersAgree(volumes: Mounts, id: string) {
    forall a, b :: Covers(a, volumes) && Covers(b, volumes) ==> VisitedAll(volumes, a, id) == VisitedAll(volumes, b, id)
  }

  lemma CollidingOrders(volumes: Mounts, id: string) returns (a: seq<string>, b: seq<string>)
    requires PlainExpansions(volumes, id) && !CollisionsAgree(volumes, id)
    ensures Covers(a, volumes) && Covers(b, volumes) && VisitedAll(volumes, a, id) != VisitedAll(volumes, b, id)
  {
    hide Contains, Expanded, VisitedAll;
    var p, q :| p in volumes && q in volumes && Contains(p) && Contains(q) && Expanded(p, id) == Expanded(q, id) &&
                volumes[p] != volumes[q];
    var rest := SomeListing(volumes.Keys - {p, q});
    LastVisitWins(volumes, rest, id, p, q);
    LastVisitWins(volumes, rest, id, q, p);
    a, b := rest + [p, q], rest + [q, p];
  }

  // Every order of the visit leaves the same map exactly when no expansion holds the placeholder
  // again and placeholder paths that expand to one path have equal mounts (one that meets a plain
  // path always wins); or when the server ID is the placeholder, and nothing ever changes.
  lemma OrderIndependentIff(volumes: Mounts, id: string)
    ensures OrdersAgree(volumes, id) <==>
            id == PLACEHOLDER || (PlainExpansions(volumes, id) && CollisionsAgree(volumes, id))
  {
    hide Contains, Expanded, VisitedAll, CollisionsAgree;
    if id == PLACEHOLDER {
      forall a
        ensures VisitedAll(volumes, a, id) == volumes
      {
        PlaceholderVisitsNothing(volumes, a);
      }
    } else if !PlainExpansions(volumes, id) {
      var p :| p in volumes && Contains(Expanded(p, id));
      var a, b := SecondVisitCounts(volumes, id, p);
    } else if CollisionsAgree(volumes, id) {
      forall a, b | Covers(a, volumes) && Covers(b, volumes)
        ensures VisitedAll(volumes, a, id) == VisitedAll(volumes, b, id)
      {
        VisitsExpand(volumes, a, id);
        VisitsExpand(volumes, b, id);
        AgreeingExpansionsEqual(volumes, id, VisitedAll(volumes, a, id), VisitedAll(volumes, b, id));
      }
    } else {
      var a, b := CollidingOrders(volumes, id);
    }
  }
}
