// The vocabulary the models share.
module Basics {

  datatype Option<+T> = None | Some(value: T)

  /** Ids are opaque; only equality matters. */
  type Id = nat

  /** The tenant of the platform's own staff, which the tenant backfills leave alone. */
  const PLATFORM_TENANT: Id := 0

  function Get<K, V>(m: map<K, V>, k: K): Option<V> {
    if k in m then Some(m[k]) else None
  }

  lemma SameMaps<K(!new), V(!new)>(a: map<K, V>, b: map<K, V>)
    requires forall k :: Get(a, k) == Get(b, k)
    ensures a == b
  {
    forall k ensures (k in a <==> k in b) && (k in a ==> a[k] == b[k]) {
      assert Get(a, k) == Get(b, k);
    }
  }

  /** Cardinality under a name of its own, so that proofs can hide it and its many set axioms. */
  ghost function Size<T>(s: set<T>): nat {
    |s|
  }

  function Min(a: nat, b: nat): nat {
    if a < b then a else b
  }

  /** Math.round. */
  function Round(x: real): int {
    (x + 0.5).Floor
  }

  lemma RoundedIsClose(x: real)
    ensures x - 0.5 < Round(x) as real <= x + 0.5
  {
  }
}
