// pulp-cell/ports.go: first-fit port pools, and the set of a fallback pool and the pools named
// by range strings.
module Ports {
  import opened Text
  import opened Ownership

  // ---------- range strings ----------

  function DigitRun(s: string): (n: nat)
    ensures n <= |s|
    ensures forall i :: 0 <= i < n ==> IsDigit(s[i])
    ensures n < |s| ==> !IsDigit(s[n])
  {
    if s == "" || !IsDigit(s[0]) then 0 else 1 + DigitRun(s[1..])
  }

  // One %d of fmt.Sscanf: spaces, a sign, the digits of a 64-bit integer, and what is left.
  function ScanInt(s: string): Option<(int, string)>
    decreases |s|
  {
    if s != "" && IsSpace(s[0]) && s[0] != '\n' then ScanInt(s[1..])
    else
      var sign := if s != "" && s[0] in "+-" then 1 else 0;
      var n := DigitRun(s[sign..]);
      var v := if s != "" && s[0] == '-' then -Numeral(s[1..1 + n]) else Numeral(s[sign..sign + n]);
      if n == 0 || !(-0x8000_0000_0000_0000 <= v < 0x8000_0000_0000_0000) then None
      else Some((v, s[sign + n..]))
  }

  function ParseRange(s: string): (r: Option<(int, int)>)
    ensures r.Some? ==> r.value.0 <= r.value.1
  {
    match ScanInt(s)
    case None => None
    case Some((start, rest)) =>
      if rest == "" || rest[0] != '-' then None
      else
        match ScanInt(rest[1..])
        case None => None
        case Some((end, _)) => if start > end then None else Some((start, end))
  }

  predicate ReadsAs(s: string, v: int, rest: string, i: nat, j: nat, k: nat)
    requires i <= j < k <= |s|
  {
    && (forall p :: 0 <= p < i ==> IsSpace(s[p]) && s[p] != '\n')
    && (s[i..j] == "" || s[i..j] == "+" || s[i..j] == "-")
    && (forall p :: j <= p < k ==> IsDigit(s[p])) && (k < |s| ==> !IsDigit(s[k]))
    && v == (if s[i..j] == "-" then -Numeral(s[j..k]) else Numeral(s[j..k]))
    && -9223372036854775808 <= v <= 9223372036854775807 && rest == s[k..]
  }

  // What a scan has read: white space but no line feed, a sign if there is one, and all digits there
  // are, of a number within 64 bits; the rest is left.
  ghost predicate Reads(s: string, v: int, rest: string) {
    exists i, j, k :: 0 <= i <= j < k <= |s| && ReadsAs(s, v, rest, i, j, k)
  }

  lemma ReadsAfterSpace(s: string, v: int, rest: string, i: nat, j: nat, k: nat)
    requires s != "" && IsSpace(s[0]) && s[0] != '\n' && i <= j < k <= |s[1..]| && ReadsAs(s[1..], v, rest, i, j, k)
    ensures ReadsAs(s, v, rest, i + 1, j + 1, k + 1)
  {
    assert s[1..][i..j] == s[i + 1..j + 1] && s[1..][j..k] == s[j + 1..k + 1] && s[1..][k..] == s[k + 1..];
    hide Numeral, IsSpace, IsDigit;
    assert forall p :: 0 < p < |s| ==> s[p] == s[1..][p - 1];
  }

  lemma ReadsHere(s: string, sign: nat, n: nat, v: int)
    requires sign <= 1 && (sign == 1 <==> s != "" && s[0] in "+-") && sign <= |s| && n == DigitRun(s[sign..]) && n > 0
    requires v == (if s[0] == '-' then -Numeral(s[1..1 + n]) else Numeral(s[sign..sign + n]))
    requires -9223372036854775808 <= v <= 9223372036854775807
    ensures ReadsAs(s, v, s[sign + n..], 0, sign, sign + n)
  {
    hide Numeral, IsDigit, DigitRun;
    assert forall p :: sign <= p < |s| ==> s[p] == s[sign..][p - sign];
    if sign == 1 {
      assert s[0..sign] == [s[0]] && (s[0] == '+' || s[0] == '-');
    }
  }

  lemma {:induction false} ScanIntReads(s: string)
    requires ScanInt(s).Some?
    ensures Reads(s, ScanInt(s).value.0, ScanInt(s).value.1)
    decreases |s|
  {
    hide Numeral, IsDigit, ReadsAs;
    var (v, rest) := ScanInt(s).value;
    if s != "" && IsSpace(s[0]) && s[0] != '\n' {
      ScanIntReads(s[1..]);
      var i, j, k :| 0 <= i <= j < k <= |s[1..]| && ReadsAs(s[1..], v, rest, i, j, k);
      ReadsAfterSpace(s, v, rest, i, j, k);
    } else {
      var sign := if s != "" && s[0] in "+-" then 1 else 0;
      ReadsHere(s, sign, DigitRun(s[sign..]), v);
    }
  }

  // A range is two such numbers around a dash, in order; what follows the second is not looked at.
  lemma ParsedRangeReads(s: string)
    requires ParseRange(s).Some?
    ensures exists rest, tail :: Reads(s, ParseRange(s).value.0, "-" + rest) && Reads(rest, ParseRange(s).value.1, tail)
    ensures ParseRange(s).value.0 <= ParseRange(s).value.1
  {
    ScanIntReads(s);
    var (start, more) := ScanInt(s).value;
    ScanIntReads(more[1..]);
    hide Reads, ScanInt;
    assert more == "-" + more[1..];
    var (end, tail) := ScanInt(more[1..]).value;
    assert Reads(s, start, "-" + more[1..]) && Reads(more[1..], end, tail);
  }

  lemma {:induction false} DigitRunAll(s: string, rest: string)
    requires forall c :: c in s ==> IsDigit(c)
    requires rest == "" || !IsDigit(rest[0])
    ensures DigitRun(s + rest) == |s|
  {
    if s == "" {
      assert s + rest == rest;
    } else {
      assert (s + rest)[1..] == s[1..] + rest;
      assert forall c :: c in s[1..] ==> c in s;
      assert s[0] in s;
      DigitRunAll(s[1..], rest);
    }
  }

  lemma ScanIntDecimal(n: nat, rest: string)
    requires n < 0x8000_0000_0000_0000
    requires rest == "" || !IsDigit(rest[0])
    ensures ScanInt(Decimal(n) + rest) == Some((n, rest))
  {
    var s := Decimal(n) + rest;
    assert s[0] == Decimal(n)[0] && Decimal(n)[0] in Decimal(n);
    DigitRunAll(Decimal(n), rest);
    assert s[0..] == s;
    assert s[0..|Decimal(n)|] == Decimal(n) && s[|Decimal(n)|..] == rest;
    NumeralOfDecimal(n);
  }

  // A range written as two decimal numerals is read back as those numbers, whatever follows it.
  lemma ParseRangeReadsBack(start: nat, end: nat, tail: string)
    requires end < 0x8000_0000_0000_0000 && start < 0x8000_0000_0000_0000
    requires tail == "" || !IsDigit(tail[0])
    ensures ParseRange(Decimal(start) + "-" + Decimal(end) + tail) ==
            if start <= end then Some((start, end)) else None
  {
    var rest := "-" + (Decimal(end) + tail);
    assert Decimal(start) + "-" + Decimal(end) + tail == Decimal(start) + rest;
    ScanIntDecimal(start, rest);
    assert rest[1..] == Decimal(end) + tail;
    ScanIntDecimal(end, tail);
  }

  // ---------- one pool ----------

  // The value of a pool.
  datatype Pool = Pool(start: int, end: int, owners: map<int, string>) {
    predicate Contains(port: int) {
      start <= port <= end
    }
  }

  ghost function FirstFree(start: int, end: int, owners: map<int, string>): (r: Option<int>)
    ensures r.Some? ==> start <= r.value <= end && r.value !in owners
    ensures r.Some? ==> forall p :: start <= p < r.value ==> p in owners
    ensures r.None? ==> forall p :: start <= p <= end ==> p in owners
    decreases end - start + 1
  {
    if start > end then None
    else if start !in owners then Some(start)
    else FirstFree(start + 1, end, owners)
  }

  ghost function PoolAllocated(p: Pool, id: string): (Pool, Option<int>) {
    match FirstFree(p.start, p.end, p.owners)
    case Some(port) => (p.(owners := p.owners[port := id]), Some(port))
    case None => (p, None)
  }

  function PoolReleased(p: Pool, id: string): Pool {
    p.(owners := Without(p.owners, id))
  }

  function PoolReKeyed(p: Pool, oldID: string, newID: string): Pool {
    p.(owners := ReKeyed(p.owners, oldID, newID))
  }

  class PortPool {
    const start: int
    const end: int
    var owners: map<int, string>

    function View(): Pool
      reads this
    {
      Pool(start, end, owners)
    }

    constructor (start: int, end: int)
      ensures View() == Pool(start, end, map[])
    {
      this.start, this.end, owners := start, end, map[];
    }

    method Allocate(serverID: string) returns (port: Option<int>)
      modifies this
      ensures (View(), port) == PoolAllocated(old(View()), serverID)
    {
      var p := start;
      while p <= end
        invariant FirstFree(p, end, owners) == FirstFree(start, end, owners)
        invariant owners == old(owners)
        decreases end - p + 1
      {
        if p !in owners {
          owners := owners[p := serverID];
          return Some(p);
        }
        p := p + 1;
      }
      return None;
    }

    method ReleaseByServer(serverID: string)
      modifies this
      ensures View() == PoolReleased(old(View()), serverID)
    {
      VisitStarts(owners, serverID, serverID);
      var todo := owners.Keys;
      while todo != {}
        invariant todo <= old(owners).Keys
        invariant owners == PartlyWithout(old(owners), todo, serverID)
        decreases |todo|
      {
        var port := Next(todo);
        VisitStep(old(owners), todo, port, serverID, serverID);
        if owners[port] == serverID {
          owners := owners - {port};
        }
        todo := todo - {port};
      }
    }

    method ReKey(oldID: string, newID: string)
      modifies this
      ensures View() == PoolReKeyed(old(View()), oldID, newID)
    {
      VisitStarts(owners, oldID, newID);
      var todo := owners.Keys;
      while todo != {}
        invariant todo <= old(owners).Keys
        invariant owners == PartlyReKeyed(old(owners), todo, oldID, newID)
        decreases |todo|
      {
        var port := Next(todo);
        VisitStep(old(owners), todo, port, oldID, newID);
        if owners[port] == oldID {
          owners := owners[port := newID];
        }
        todo := todo - {port};
      }
    }

    method Reserve(port: int, serverID: string)
      modifies this
      ensures View() == old(View()).(owners := old(owners)[port := serverID])
    {
      owners := owners[port := serverID];
    }
  }

  // ---------- the pool set ----------

  // The value of a pool set.
  datatype PoolSet = PoolSet(fallback: Pool, pools: map<string, Pool>)

  function SetReleased(ps: PoolSet, id: string): PoolSet {
    PoolSet(PoolReleased(ps.fallback, id), map r | r in ps.pools :: PoolReleased(ps.pools[r], id))
  }

  function SetReKeyed(ps: PoolSet, oldID: string, newID: string): PoolSet {
    PoolSet(PoolReKeyed(ps.fallback, oldID, newID), map r | r in ps.pools :: PoolReKeyed(ps.pools[r], oldID, newID))
  }

  // The pools in the middle of a visit that turns before into after.
  ghost function Mixed(before: map<string, Pool>, after: map<string, Pool>, todo: set<string>): map<string, Pool>
    requires before.Keys == after.Keys
  {
    map r | r in before :: if r in todo then before[r] else after[r]
  }

  lemma MixedEnds(before: map<string, Pool>, after: map<string, Pool>)
    requires before.Keys == after.Keys
    ensures Mixed(before, after, before.Keys) == before && Mixed(before, after, {}) == after
  {
  }

  lemma MixedStep(before: map<string, Pool>, after: map<string, Pool>, todo: set<string>, r: string)
    requires before.Keys == after.Keys && r in todo && todo <= before.Keys
    ensures Mixed(before, after, todo)[r] == before[r]
    ensures Mixed(before, after, todo - {r}) == Mixed(before, after, todo)[r := after[r]]
  {
  }

  // The pools once the pool named by a range string has been asked for.
  function WithPool(ps: PoolSet, range: string): PoolSet {
    if range in ps.pools then ps
    else
      match ParseRange(range)
      case None => ps
      case Some((start, end)) => ps.(pools := ps.pools[range := Pool(start, end, map[])])
  }

  ghost function SetAllocated(ps: PoolSet, range: string, id: string): (PoolSet, Option<int>) {
    if range == "" then
      var (p, port) := PoolAllocated(ps.fallback, id);
      (ps.(fallback := p), port)
    else
      var ps1 := WithPool(ps, range);
      if range !in ps1.pools then (ps, None)
      else
        var (p, port) := PoolAllocated(ps1.pools[range], id);
        (ps1.(pools := ps1.pools[range := p]), port)
  }

  function ReservedIn(ps: PoolSet, range: string, port: int, id: string): PoolSet
    requires range in ps.pools
  {
    ps.(pools := ps.pools[range := ps.pools[range].(owners := ps.pools[range].owners[port := id])])
  }

  function ReservedInFallback(ps: PoolSet, port: int, id: string): PoolSet {
    ps.(fallback := ps.fallback.(owners := ps.fallback.owners[port := id]))
  }

  predicate Covers(ps: PoolSet, range: string, port: int) {
    range in ps.pools && ps.pools[range].Contains(port)
  }

  // Reserving goes to some pool whose range contains the port, or to the fallback pool.
  ghost predicate Reserves(ps: PoolSet, after: PoolSet, port: int, id: string) {
    || (exists r :: Covers(ps, r, port) && after == ReservedIn(ps, r, port, id))
    || ((forall r :: !Covers(ps, r, port)) && after == ReservedInFallback(ps, port, id))
  }

  class PortPoolSet {
    const fallback: PortPool
    var pools: map<string, PortPool>
    // The value of the set.
    ghost var Contents: PoolSet

    // Different range strings name different pool objects, and Contents is what they hold.
    ghost predicate Valid()
      reads this, fallback, pools.Values
    {
      && fallback !in pools.Values
      && (forall r1, r2 :: r1 in pools && r2 in pools && r1 != r2 ==> pools[r1] != pools[r2])
      && Contents.fallback == fallback.View()
      && Contents.pools.Keys == pools.Keys
      && (forall r :: r in pools ==> Contents.pools[r] == pools[r].View())
    }

    constructor (fallback: PortPool)
      ensures Valid() && this.fallback == fallback && Contents == PoolSet(fallback.View(), map[])
      ensures pools == map[]
    {
      this.fallback, pools := fallback, map[];
      Contents := PoolSet(fallback.View(), map[]);
    }

    method GetOrCreate(range: string) returns (pool: Option<PortPool>)
      requires Valid()
      modifies this
      ensures Valid() && Contents == WithPool(old(Contents), range)
      ensures pool == if range in pools then Some(pools[range]) else None
      ensures pools.Keys >= old(pools.Keys) && forall r :: r in old(pools) ==> pools[r] == old(pools)[r]
      ensures fresh(pools.Values - old(pools.Values))
    {
      if range in pools {
        return Some(pools[range]);
      }
      var parsed := ParseRange(range);
      if parsed.None? {
        return None;
      }
      var p := new PortPool(parsed.value.0, parsed.value.1);
      pools := pools[range := p];
      Contents := Contents.(pools := Contents.pools[range := p.View()]);
      return Some(p);
    }

    method AllocateIn(range: string, serverID: string) returns (port: Option<int>)
      requires Valid() && range in pools
      modifies this`Contents, pools[range]
      ensures Valid()
      ensures var (p, allotted) := PoolAllocated(old(Contents).pools[range], serverID);
              Contents == old(Contents).(pools := old(Contents).pools[range := p]) && port == allotted
    {
      port := pools[range].Allocate(serverID);
      Contents := Contents.(pools := Contents.pools[range := pools[range].View()]);
    }

    method Allocate(range: string, serverID: string) returns (port: Option<int>)
      requires Valid()
      modifies this, fallback, pools.Values
      ensures Valid() && fresh(pools.Values - old(pools.Values))
      ensures (Contents, port) == SetAllocated(old(Contents), range, serverID)
    {
      if range == "" {
        port := fallback.Allocate(serverID);
        Contents := Contents.(fallback := fallback.View());
        return;
      }
      var pool := GetOrCreate(range);
      if pool.None? {
        return None;
      }
      port := AllocateIn(range, serverID);
    }

    method ReleaseIn(r: string, serverID: string)
      requires Valid() && r in pools
      modifies this`Contents, pools[r]
      ensures Valid()
      ensures Contents == old(Contents).(pools := old(Contents).pools[r := PoolReleased(old(Contents).pools[r], serverID)])
    {
      pools[r].ReleaseByServer(serverID);
      Contents := Contents.(pools := Contents.pools[r := pools[r].View()]);
    }

    method ReleaseNamed(serverID: string)
      requires Valid()
      modifies this`Contents, pools.Values
      ensures Valid()
      ensures Contents == old(Contents).(pools := SetReleased(old(Contents), serverID).pools)
    {
      ghost var before, after := Contents.pools, SetReleased(Contents, serverID).pools;
      MixedEnds(before, after);
      var todo := pools.Keys;
      assert before.Keys == pools.Keys;
      hide PortPoolSet.Valid, Mixed;
      while todo != {}
        invariant Valid() && todo <= before.Keys
        invariant Contents == old(Contents).(pools := Mixed(before, after, todo))
        decreases |todo|
      {
        var r := Next(todo);
        MixedStep(before, after, todo, r);
        ReleaseIn(r, serverID);
        todo := todo - {r};
      }
    }

    method ReleaseByServer(serverID: string)
      requires Valid()
      modifies this`Contents, fallback, pools.Values
      ensures Valid() && Contents == SetReleased(old(Contents), serverID)
    {
      fallback.ReleaseByServer(serverID);
      Contents := Contents.(fallback := fallback.View());
      ReleaseNamed(serverID);
    }

    method ReKeyIn(r: string, oldID: string, newID: string)
      requires Valid() && r in pools
      modifies this`Contents, pools[r]
      ensures Valid()
      ensures Contents == old(Contents).(pools := old(Contents).pools[r := PoolReKeyed(old(Contents).pools[r], oldID, newID)])
    {
      pools[r].ReKey(oldID, newID);
      Contents := Contents.(pools := Contents.pools[r := pools[r].View()]);
    }

    method ReKeyNamed(oldID: string, newID: string)
      requires Valid()
      modifies this`Contents, pools.Values
      ensures Valid()
      ensures Contents == old(Contents).(pools := SetReKeyed(old(Contents), oldID, newID).pools)
    {
      ghost var before, after := Contents.pools, SetReKeyed(Contents, oldID, newID).pools;
      MixedEnds(before, after);
      var todo := pools.Keys;
      assert before.Keys == pools.Keys;
      hide PortPoolSet.Valid, Mixed;
      while todo != {}
        invariant Valid() && todo <= before.Keys
        invariant Contents == old(Contents).(pools := Mixed(before, after, todo))
        decreases |todo|
      {
        var r := Next(todo);
        MixedStep(before, after, todo, r);
        ReKeyIn(r, oldID, newID);
        todo := todo - {r};
      }
    }

    method ReKey(oldID: string, newID: string)
      requires Valid()
      modifies this`Contents, fallback, pools.Values
      ensures Valid() && Contents == SetReKeyed(old(Contents), oldID, newID)
    {
      fallback.ReKey(oldID, newID);
      Contents := Contents.(fallback := fallback.View());
      ReKeyNamed(oldID, newID);
    }

    // The pools are visited in an unspecified order, as Go's range over a map does.
    method Covering(port: int) returns (range: Option<string>)
      requires Valid()
      ensures range.Some? ==> Covers(Contents, range.value, port)
      ensures range.None? ==> forall r :: !Covers(Contents, r, port)
    {
      var todo := pools.Keys;
      while todo != {}
        invariant todo <= pools.Keys
        invariant forall r :: r in pools && r !in todo ==> !Covers(Contents, r, port)
        decreases |todo|
      {
        var r := Next(todo);
        if pools[r].start <= port <= pools[r].end {
          return Some(r);
        }
        todo := todo - {r};
      }
      return None;
    }

    method Reserve(port: int, serverID: string)
      requires Valid()
      modifies this, fallback, pools.Values
      ensures Valid() && pools == old(pools)
      ensures Reserves(old(Contents), Contents, port, serverID)
    {
      var range := Covering(port);
      if range.Some? {
        pools[range.value].Reserve(port, serverID);
        Contents := ReservedIn(Contents, range.value, port, serverID);
      } else {
        fallback.Reserve(port, serverID);
        Contents := ReservedInFallback(Contents, port, serverID);
      }
    }
  }
}
