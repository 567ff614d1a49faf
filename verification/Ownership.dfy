// What giving back and re-keying do to a table from resources to owning server IDs. Port pools
// and the IP pool keep the same kind of table.
module Ownership {

  // The next key of a Go map visited in unspecified order.
  method Next<K>(todo: set<K>) returns (k: K)
    requires todo != {}
    ensures k in todo
  {
    k :| k in todo;
  }

  // Every entry of id is dropped.
  function Without<K>(m: map<K, string>, id: string): map<K, string> {
    map k | k in m && m[k] != id :: m[k]
  }

  // Every entry of oldID now belongs to newID.
  function ReKeyed<K>(m: map<K, string>, oldID: string, newID: string): map<K, string> {
    map k | k in m :: if m[k] == oldID then newID else m[k]
  }

  // A visit that has still to look at the keys in todo.
  ghost function PartlyWithout<K>(m: map<K, string>, todo: set<K>, id: string): map<K, string> {
    map k | k in m && (k in todo || m[k] != id) :: m[k]
  }

  ghost function PartlyReKeyed<K>(m: map<K, string>, todo: set<K>, oldID: string, newID: string): map<K, string> {
    map k | k in m :: if k !in todo && m[k] == oldID then newID else m[k]
  }

  lemma VisitStarts<K>(m: map<K, string>, oldID: string, newID: string)
    ensures PartlyWithout(m, m.Keys, oldID) == m && PartlyReKeyed(m, m.Keys, oldID, newID) == m
    ensures PartlyWithout(m, {}, oldID) == Without(m, oldID)
    ensures PartlyReKeyed(m, {}, oldID, newID) == ReKeyed(m, oldID, newID)
  {
  }

  lemma VisitStep<K>(m: map<K, string>, todo: set<K>, k: K, oldID: string, newID: string)
    requires k in todo && todo <= m.Keys
    ensures k in PartlyWithout(m, todo, oldID) && PartlyWithout(m, todo, oldID)[k] == m[k]
    ensures PartlyWithout(m, todo - {k}, oldID) ==
            if m[k] == oldID then PartlyWithout(m, todo, oldID) - {k} else PartlyWithout(m, todo, oldID)
    ensures k in PartlyReKeyed(m, todo, oldID, newID) && PartlyReKeyed(m, todo, oldID, newID)[k] == m[k]
    ensures PartlyReKeyed(m, todo - {k}, oldID, newID) ==
            if m[k] == oldID then PartlyReKeyed(m, todo, oldID, newID)[k := newID]
            else PartlyReKeyed(m, todo, oldID, newID)
  {
  }

  ghost predicate OwnsNone<K(!new)>(m: map<K, string>, id: string) {
    forall k :: k in m ==> m[k] != id
  }

  // after keeps all of before and adds entries of id only.
  ghost predicate Extends<K(!new)>(before: map<K, string>, after: map<K, string>, id: string) {
    && (forall k :: k in before ==> k in after && after[k] == before[k])
    && (forall k :: k in after && k !in before ==> after[k] == id)
  }

  // Giving everything of id back undoes additions made for it exactly when id had nothing before.
  lemma WithoutUndoes<K(!new)>(before: map<K, string>, after: map<K, string>, id: string)
    requires Extends(before, after, id)
    ensures Without(after, id) == before <==> OwnsNone(before, id)
  {
    if OwnsNone(before, id) {
      assert Without(after, id) == before;
    } else {
      var k :| k in before && before[k] == id;
      assert k !in Without(after, id);
    }
  }

  lemma UpdateToSame<K(!new)>(m: map<K, string>, k: K)
    requires k in m
    ensures m[k := m[k]] == m
  {
  }

  // Additions made for oldID are additions of newID after the re-keying.
  lemma ReKeyedExtends<K(!new)>(before: map<K, string>, after: map<K, string>, oldID: string, newID: string)
    requires Extends(before, after, oldID) && OwnsNone(before, oldID)
    ensures Extends(before, ReKeyed(after, oldID, newID), newID)
  {
  }

  ghost predicate Included<K(!new)>(m: map<K, string>, n: map<K, string>) {
    forall k :: k in m ==> k in n && n[k] == m[k]
  }

  lemma IncludedBothWays<K(!new)>(m: map<K, string>, n: map<K, string>)
    requires Included(m, n) && Included(n, m)
    ensures m == n
  {
  }

  // What includes a map with one entry more includes the map and the entry.
  lemma UpdateIncludes<K(!new)>(m: map<K, string>, k: K, id: string, n: map<K, string>)
    requires k !in m && Included(m[k := id], n)
    ensures Included(m, n) && k in n && n[k] == id
  {
    assert k in m[k := id];
    assert forall j :: j in m ==> j in m[k := id];
  }
}
