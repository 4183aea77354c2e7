/**
 * Callback tables keyed by prim type name, written with
 * `table[prim_type] = fun;` (insert, or overwrite an existing entry).
 */
module Registry {

  /** `m[k] = v` on a `std::map`: afterwards `k` maps to `v`, every other key as before. */
  function Register<K, V>(m: map<K, V>, k: K, v: V): (r: map<K, V>)
    ensures k in r && r[k] == v
    ensures r.Keys == m.Keys + {k}
    ensures forall k' :: k' in m && k' != k ==> r[k'] == m[k']
  {
    m[k := v]
  }

  /** A second registration for the same key replaces the first. */
  lemma LastRegistrationWins<K, V>(m: map<K, V>, k: K, f: V, g: V)
    ensures Register(Register(m, k, f), k, g) == Register(m, k, g)
  {
  }

  /** Registrations under different keys do not interfere, whatever their order. */
  lemma DistinctRegistrationsCommute<K, V>(m: map<K, V>, k1: K, f: V, k2: K, g: V)
    requires k1 != k2
    ensures Register(Register(m, k1, f), k2, g) == Register(Register(m, k2, g), k1, f)
  {
  }
}
