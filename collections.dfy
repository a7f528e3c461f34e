/**
 * Algebra of sequence concatenation and map override, stated once so that
 * the loop proofs can name the step they take instead of rediscovering it.
 */
module Collections {

  lemma ConcatAssoc<T>(x: seq<T>, y: seq<T>, z: seq<T>)
    ensures (x + y) + z == x + (y + z)
  {
  }

  /** Map override, where the right operand wins, is associative. */
  lemma OverrideAssoc<K, V>(x: map<K, V>, y: map<K, V>, z: map<K, V>)
    ensures (x + y) + z == x + (y + z)
  {
  }

  /** Overriding twice with the same map is overriding once. */
  lemma OverrideTwice<K, V>(a: map<K, V>, b: map<K, V>)
    ensures (a + b) + b == a + b
  {
  }

  /** Updating an overridden map is overriding with the updated map. */
  lemma OverrideUpdate<K, V>(a: map<K, V>, b: map<K, V>, k: K, v: V)
    ensures (a + b)[k := v] == a + b[k := v]
  {
  }
}
