/** Shared vocabulary. */
module Basics {

  datatype Option<+T> = None | Some(value: T)

  /** Hosts are known by a UUID, read here as a number. */
  type HostId = nat

  type AgentId = string

  datatype Health = Healthy | DegradedHealth | Unhealthy | UnknownHealth
}

/** The sum of a map's values. */
module MapSums {

  ghost function Sum<K(!new)>(m: map<K, int>): int {
    if m == map[] then 0 else var k :| k in m; m[k] + Sum(m - {k})
  }

  /** The sum does not depend on the order in which the map is read. */
  lemma {:induction false} SumRemove<K(!new)>(m: map<K, int>, k: K)
    requires k in m
    ensures Sum(m) == m[k] + Sum(m - {k})
    decreases m.Keys
  {
    var j :| j in m && Sum(m) == m[j] + Sum(m - {j});
    if j != k {
      SumRemove(m - {j}, k);
      SumRemove(m - {k}, j);
      assert m - {j} - {k} == m - {k} - {j};
    }
  }
}
