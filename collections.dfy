/** Facts about sequences that grow at the end and maps updated twice at one key. */
module Collections {
  /** A sequence one longer than `a` that starts with `a` is `a` and its last element. */
  lemma Snoc<T>(a: seq<T>, b: seq<T>)
    requires |b| == |a| + 1 && b[..|a|] == a
    ensures b == a + [b[|a|]]
  {
    assert forall k :: 0 <= k < |a| ==> b[k] == b[..|a|][k];
  }

  /** Dropping a prefix commutes with appending at the end. */
  lemma SnocSuffix<T>(a: seq<T>, x: T, k: nat)
    requires k <= |a|
    ensures (a + [x])[k..] == a[k..] + [x]
  {
  }

  /** A second update at a key overrides the first. */
  lemma UpdateTwice<K, V>(m: map<K, V>, k: K, a: V, b: V)
    ensures m[k := a][k := b] == m[k := b]
  {
  }

  /** Removing a key undoes an update at it. */
  lemma UpdateRemove<K, V>(m: map<K, V>, k: K, a: V)
    ensures m[k := a] - {k} == m - {k}
  {
  }
}
