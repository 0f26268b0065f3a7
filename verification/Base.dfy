/** Small shared datatypes. */
module Base {
  datatype Option<+T> = None | Some(value: T)

  /** What a store call does and what its caller is told: it happened, it failed without effect,
      or it happened and the reply was lost, so that the caller sees an error. */
  datatype Reply = Fine | Fails | Lost

  /** The sum of the values of a finite map. */
  ghost function MapSum<K>(m: map<K, int>): int {
    if m == map[] then 0
    else
      var k :| k in m;
      m[k] + MapSum(m - {k})
  }

  lemma {:induction false} MapSumSplit<K>(m: map<K, int>, k: K)
    requires k in m
    ensures MapSum(m) == m[k] + MapSum(m - {k})
    decreases |m|
  {
    var k0 :| k0 in m && MapSum(m) == m[k0] + MapSum(m - {k0});
    if k0 != k {
      MapSumSplit(m - {k0}, k);
      MapSumSplit(m - {k}, k0);
      assert (m - {k0}) - {k} == (m - {k}) - {k0};
    }
  }

  lemma MapSumInsert<K>(m: map<K, int>, k: K, v: int)
    requires k !in m
    ensures MapSum(m[k := v]) == MapSum(m) + v
  {
    MapSumSplit(m[k := v], k);
    assert m[k := v] - {k} == m;
  }

  function Iterate<S>(f: S -> S, s: S, k: nat): S { if k == 0 then s else f(Iterate(f, s, k - 1)) }

  /** One step more in front. */
  lemma {:induction false} IterateAfter<S>(f: S -> S, s: S, k: nat)
    ensures Iterate(f, s, k + 1) == Iterate(f, f(s), k)
  {
    if k > 0 {
      IterateAfter(f, s, k - 1);
    } else {
      assert Iterate(f, s, 0) == s;
    }
  }
}
