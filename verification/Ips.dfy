// pulp-cell/ips.go: a pool of IPv4 addresses, searched cyclically from its start to its end.
module Ips {
  import opened Text
  import opened Ownership

  function Power256(n: nat): (p: int)
    ensures p > 0
  {
    if n == 0 then 1 else 256 * Power256(n - 1)
  }

  // The number a big-endian byte string stands for.
  function Value(s: seq<Byte>): (v: int)
    ensures 0 <= v < Power256(|s|)
  {
    if s == [] then 0 else 256 * Value(s[..|s| - 1]) + s[|s| - 1]
  }

  lemma {:induction false} ValueInjective(s: seq<Byte>, t: seq<Byte>)
    requires |s| == |t| && Value(s) == Value(t)
    ensures s == t
  {
    if s != [] {
      var n := |s| - 1;
      assert Value(s[..n]) == Value(t[..n]) && s[n] == t[n];
      ValueInjective(s[..n], t[..n]);
      assert s == s[..n] + [s[n]] && t == t[..n] + [t[n]];
    }
  }

  // The carry, from the last byte towards the first.
  function Incremented(s: seq<Byte>): (t: seq<Byte>)
    ensures |t| == |s|
  {
    if s == [] then []
    else if s[|s| - 1] == 255 then Incremented(s[..|s| - 1]) + [0]
    else s[..|s| - 1] + [s[|s| - 1] + 1]
  }

  lemma SuccessorModulo(v: int, m: int)
    requires 0 <= v < m
    ensures (v + 1) % m == if v + 1 == m then 0 else v + 1
  {
  }

  // Incrementing bytes with carry is adding one modulo 256^n.
  lemma {:induction false} IncrementedAddsOne(s: seq<Byte>)
    ensures Value(Incremented(s)) == (Value(s) + 1) % Power256(|s|)
  {
    SuccessorModulo(Value(s), Power256(|s|));
    if s != [] {
      var n := |s| - 1;
      var t := Incremented(s);
      if s[n] == 255 {
        IncrementedAddsOne(s[..n]);
        SuccessorModulo(Value(s[..n]), Power256(n));
        assert t[..n] == Incremented(s[..n]) && t[n] == 0;
      } else {
        assert t[..n] == s[..n] && t[n] == s[n] + 1;
      }
    }
  }

  // Byte i is the last one below 255 (or -1 if there is none): it goes up, those after it go to 0.
  lemma {:induction false} CarryReaches(s: seq<Byte>, t: seq<Byte>, i: int)
    requires |t| == |s| && -1 <= i < |s|
    requires forall k :: 0 <= k < i ==> t[k] == s[k]
    requires i >= 0 ==> s[i] != 255 && t[i] == s[i] + 1
    requires forall k :: i < k < |s| ==> s[k] == 255 && t[k] == 0
    ensures t == Incremented(s)
  {
    var n := |s| - 1;
    if i < n {
      CarryReaches(s[..n], t[..n], i);
      assert t == t[..n] + [t[n]];
    } else if s != [] {
      assert t == s[..n] + [t[n]];
    }
  }

  method IncIP(ip: array<Byte>)
    modifies ip
    ensures ip[..] == Incremented(old(ip[..]))
  {
    ghost var s := ip[..];
    var i := ip.Length - 1;
    while i >= 0
      invariant -1 <= i < ip.Length
      invariant forall k :: 0 <= k <= i ==> ip[k] == s[k]
      invariant forall k :: i < k < ip.Length ==> s[k] == 255 && ip[k] == 0
      decreases i
    {
      var b: int := ip[i];
      ip[i] := (b + 1) % 256;
      if ip[i] != 0 {
        CarryReaches(s, ip[..], i);
        return;
      }
      i := i - 1;
    }
    CarryReaches(s, ip[..], -1);
  }

  // ---------- dotted decimal ----------

  predicate IsAddress(s: seq<Byte>) {
    |s| == 4
  }

  // net.IP.String on four bytes.
  function Dotted(s: seq<Byte>): (t: string)
    requires IsAddress(s)
    ensures t != ""
  {
    Decimal(s[0]) + "." + Decimal(s[1]) + "." + Decimal(s[2]) + "." + Decimal(s[3])
  }

  lemma DottedInjective(s: seq<Byte>, t: seq<Byte>)
    requires IsAddress(s) && IsAddress(t) && Dotted(s) == Dotted(t)
    ensures s == t
  {
    var s2, t2 := Decimal(s[0]) + "." + Decimal(s[1]), Decimal(t[0]) + "." + Decimal(t[1]);
    var s3, t3 := s2 + "." + Decimal(s[2]), t2 + "." + Decimal(t[2]);
    SplitAtLast(s3, Decimal(s[3]), t3, Decimal(t[3]), '.');
    SplitAtLast(s2, Decimal(s[2]), t2, Decimal(t[2]), '.');
    SplitAtLast(Decimal(s[0]), Decimal(s[1]), Decimal(t[0]), Decimal(t[1]), '.');
    forall i | 0 <= i < 4
      ensures s[i] == t[i]
    {
      DecimalInjective(s[i], t[i]);
    }
  }

  // ---------- the pool ----------

  // The value of a pool.
  datatype IpState = IpState(start: seq<Byte>, end: seq<Byte>, owners: map<string, string>) {
    ghost predicate Valid() {
      IsAddress(start) && IsAddress(end)
    }
  }

  // k steps on from an address.
  ghost function Advanced(s: seq<Byte>, k: nat): (t: seq<Byte>)
    ensures |t| == |s|
  {
    if k == 0 then s else Incremented(Advanced(s, k - 1))
  }

  const ADDRESSES := 0x1_0000_0000

  lemma StepModulo(v: int)
    ensures (v % ADDRESSES + 1) % ADDRESSES == (v + 1) % ADDRESSES
  {
    SuccessorModulo(v % ADDRESSES, ADDRESSES);
  }

  // Two numbers less than a full turn apart differ modulo the number of addresses.
  lemma WithinOneTurn(a: int, d: int)
    requires 0 < d < ADDRESSES
    ensures a % ADDRESSES != (a + d) % ADDRESSES
  {
  }

  lemma TurnReaches(a: int, b: int)
    requires 0 <= a < ADDRESSES && 0 <= b < ADDRESSES
    ensures (b - a) % ADDRESSES == if a <= b then b - a else b - a + ADDRESSES
    ensures (a + (b - a) % ADDRESSES) % ADDRESSES == b
  {
  }

  lemma {:induction false} AdvancedValue(s: seq<Byte>, k: nat)
    requires IsAddress(s)
    ensures Value(Advanced(s, k)) == (Value(s) + k) % ADDRESSES
  {
    assert Power256(4) == ADDRESSES;
    if k != 0 {
      AdvancedValue(s, k - 1);
      IncrementedAddsOne(Advanced(s, k - 1));
      StepModulo(Value(s) + k - 1);
    }
  }

  // How many steps it takes from the start to the end, going round past the highest address.
  function Span(p: IpState): nat {
    (Value(p.end) - Value(p.start)) % ADDRESSES
  }

  ghost function Candidate(p: IpState, k: nat): string
    requires p.Valid()
  {
    Dotted(Advanced(p.start, k))
  }

  lemma CandidatesDistinct(p: IpState, j: nat, k: nat)
    requires p.Valid() && j < k <= Span(p)
    ensures Candidate(p, j) != Candidate(p, k)
  {
    AdvancedValue(p.start, j);
    AdvancedValue(p.start, k);
    WithinOneTurn(Value(p.start) + j, k - j);
    if Candidate(p, j) == Candidate(p, k) {
      DottedInjective(Advanced(p.start, j), Advanced(p.start, k));
    }
  }

  // The end of the range is the candidate after exactly Span steps.
  lemma EndIsLastCandidate(p: IpState, k: nat)
    requires p.Valid() && k <= Span(p)
    ensures Advanced(p.start, k) == p.end <==> k == Span(p)
  {
    var last := Advanced(p.start, k);
    AdvancedValue(p.start, k);
    assert Power256(4) == ADDRESSES;
    TurnReaches(Value(p.start), Value(p.end));
    if k < Span(p) {
      WithinOneTurn(Value(p.start) + k, Span(p) - k);
    } else {
      assert Value(last) == Value(p.end);
      ValueInjective(last, p.end);
    }
  }

  // s is the first free address of the cyclic range, if there is any.
  ghost predicate FirstFreeAddress(p: IpState, s: Option<string>)
    requires p.Valid()
  {
    match s
    case Some(ip) =>
      exists k: nat :: k <= Span(p) && ip == Candidate(p, k) && ip !in p.owners &&
                       forall j: nat :: j < k ==> Candidate(p, j) in p.owners
    case None =>
      forall j: nat :: j <= Span(p) ==> Candidate(p, j) in p.owners
  }

  ghost function FreeFrom(p: IpState, k: nat): Option<string>
    requires p.Valid() && k <= Span(p)
    decreases Span(p) - k
  {
    if Candidate(p, k) !in p.owners then Some(Candidate(p, k))
    else if k == Span(p) then None
    else FreeFrom(p, k + 1)
  }

  lemma {:induction false} FreeFromIsFirst(p: IpState, k: nat)
    requires p.Valid() && k <= Span(p)
    requires forall j: nat :: j < k ==> Candidate(p, j) in p.owners
    ensures FirstFreeAddress(p, FreeFrom(p, k))
    decreases Span(p) - k
  {
    if Candidate(p, k) in p.owners && k < Span(p) {
      FreeFromIsFirst(p, k + 1);
    }
  }

  ghost function IpAllocated(p: IpState, id: string): (IpState, Option<string>)
    requires p.Valid()
  {
    match FreeFrom(p, 0)
    case Some(ip) => (p.(owners := p.owners[ip := id]), Some(ip))
    case None => (p, None)
  }

  // What an allocation hands out is the first free address in cyclic order; only when every
  // address from the start round to the end is taken does it hand out nothing.
  lemma AllocatesFirstFree(p: IpState, id: string)
    requires p.Valid()
    ensures var (after, s) := IpAllocated(p, id);
            FirstFreeAddress(p, s) && after.owners == if s.Some? then p.owners[s.value := id] else p.owners
  {
    FreeFromIsFirst(p, 0);
  }

  // An address frees up for the given ID: any one of its addresses, or none when it has none.
  ghost predicate Frees(p: IpState, id: string, freed: Option<string>) {
    match freed
    case Some(ip) => ip in p.owners && p.owners[ip] == id
    case None => OwnsNone(p.owners, id)
  }

  function IpReleased(p: IpState, freed: Option<string>): IpState {
    if freed.Some? then p.(owners := p.owners - {freed.value}) else p
  }

  method Copied(source: array<Byte>) returns (ip: array<Byte>)
    ensures fresh(ip) && ip[..] == source[..]
  {
    ip := new Byte[source.Length];
    forall i | 0 <= i < source.Length {
      ip[i] := source[i];
    }
  }

  class IpPool {
    const start: array<Byte>
    const end: array<Byte>
    var owners: map<string, string>

    ghost predicate Valid()
      reads this, start, end
    {
      start.Length == 4 && end.Length == 4
    }

    function View(): IpState
      reads this, start, end
    {
      IpState(start[..], end[..], owners)
    }

    constructor (start: array<Byte>, end: array<Byte>)
      requires start.Length == 4 && end.Length == 4
      ensures Valid() && View() == IpState(start[..], end[..], map[])
    {
      this.start, this.end, owners := start, end, map[];
    }

    method Allocate(serverID: string) returns (address: Option<string>)
      requires Valid()
      modifies this
      ensures Valid() && (View(), address) == IpAllocated(old(View()), serverID)
    {
      var ip := Copied(start);
      ghost var p, k := View(), 0;
      while true
        modifies ip, this
        invariant owners == p.owners && View() == p && k <= Span(p)
        invariant ip[..] == Advanced(p.start, k)
        invariant FreeFrom(p, k) == FreeFrom(p, 0)
        decreases Span(p) - k
      {
        var ipStr := Dotted(ip[..]);
        if ipStr !in owners {
          owners := owners[ipStr := serverID];
          return Some(ipStr);
        }
        EndIsLastCandidate(p, k);
        if ip[..] == end[..] {
          return None;
        }
        IncIP(ip);
        k := k + 1;
      }
    }

    method Release(ip: string)
      modifies this
      ensures start[..] == old(start[..]) && end[..] == old(end[..])
      ensures View() == old(View()).(owners := old(owners) - {ip})
    {
      owners := owners - {ip};
    }

    // Stops after the first address it meets: freed tells which one that was.
    method ReleaseByServer(serverID: string) returns (freed: Option<string>)
      modifies this
      ensures Frees(old(View()), serverID, freed) && View() == IpReleased(old(View()), freed)
    {
      var todo := owners.Keys;
      while todo != {}
        invariant todo <= owners.Keys && owners == old(owners)
        invariant forall ip :: ip in owners && ip !in todo ==> owners[ip] != serverID
        decreases |todo|
      {
        var ip := Next(todo);
        if owners[ip] == serverID {
          owners := owners - {ip};
          return Some(ip);
        }
        todo := todo - {ip};
      }
      return None;
    }

    method ReKey(oldID: string, newID: string)
      modifies this
      ensures View() == old(View()).(owners := ReKeyed(old(owners), oldID, newID))
    {
      VisitStarts(owners, oldID, newID);
      var todo := owners.Keys;
      while todo != {}
        invariant todo <= old(owners).Keys
        invariant owners == PartlyReKeyed(old(owners), todo, oldID, newID)
        decreases |todo|
      {
        var ip := Next(todo);
        VisitStep(old(owners), todo, ip, oldID, newID);
        if owners[ip] == oldID {
          owners := owners[ip := newID];
        }
        todo := todo - {ip};
      }
    }

    method Reserve(ip: string, serverID: string)
      modifies this
      ensures View() == old(View()).(owners := old(owners)[ip := serverID])
    {
      owners := owners[ip := serverID];
    }
  }

  // ---------- releasing ----------

  ghost predicate AtMostOne(p: IpState, id: string) {
    forall a, b :: a in p.owners && b in p.owners && p.owners[a] == id && p.owners[b] == id ==> a == b
  }

  // Releasing by server leaves the server without an address, whichever address the map offers
  // first, exactly when it had at most one.
  lemma ReleaseFreesAllIff(p: IpState, id: string)
    ensures (forall freed :: Frees(p, id, freed) ==> OwnsNone(IpReleased(p, freed).owners, id)) <==> AtMostOne(p, id)
  {
    if AtMostOne(p, id) {
      forall freed | Frees(p, id, freed)
        ensures OwnsNone(IpReleased(p, freed).owners, id)
      {
      }
    } else {
      var a, b :| a in p.owners && b in p.owners && p.owners[a] == id && p.owners[b] == id && a != b;
      assert Frees(p, id, Some(a));
      assert b in IpReleased(p, Some(a)).owners;
    }
  }
}
