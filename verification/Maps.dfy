/** Equality of maps from equality of keys and values. */
module Maps {

  lemma SameMap<K, V>(m: map<K, V>, n: map<K, V>)
    requires forall k :: k in m <==> k in n
    requires forall k :: k in m ==> m[k] == n[k]
    ensures m == n
  {
    forall k | k in m.Keys ensures k in n.Keys {}
    forall k | k in n.Keys ensures k in m.Keys {}
    forall k | k in m ensures m[k] == n[k] {}
  }

  lemma Updated<K, V>(m: map<K, V>, n: map<K, V>, k: K)
    requires k in m && forall j :: j in m <==> j in n
    requires forall j :: j in m && j != k ==> m[j] == n[j]
    ensures m == n[k := m[k]]
  {
    SameMap(m, n[k := m[k]]);
  }
}
