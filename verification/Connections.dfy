/** In-flight accounting: a signed count per key (per address in the connection tracker, per subnet
    in the subnet tracker) that stands in for the multiset of live requests. */
module Connections {

  function Count<K>(m: map<K, int>, k: K): int {
    if k in m then m[k] else 0
  }

  function Incremented<K>(m: map<K, int>, k: K): map<K, int> {
    m[k := Count(m, k) + 1]
  }

  /** Subtract one; a count that was not positive is repaired to zero. */
  function Decremented<K>(m: map<K, int>, k: K): map<K, int> {
    if k !in m then m else if m[k] <= 0 then m[k := 0] else m[k := m[k] - 1]
  }

  function Swept<K>(m: map<K, int>): map<K, int> {
    map k | k in m && m[k] > 0 :: m[k]
  }

  ghost function Sum<K(!new)>(m: map<K, int>): int {
    if m == map[] then 0
    else var k :| k in m; m[k] + Sum(m - {k})
  }

  /** The sum does not depend on the order in which the entries are visited. */
  lemma {:induction false} SumRemove<K(!new)>(m: map<K, int>, k: K)
    requires k in m
    ensures Sum(m) == m[k] + Sum(m - {k})
  {
    var j :| j in m && Sum(m) == m[j] + Sum(m - {j});
    if j != k {
      SumRemove(m - {j}, k);
      SumRemove(m - {k}, j);
      assert m - {j} - {k} == m - {k} - {j};
    }
  }

  /** The counts are those of a multiset of holders. */
  ghost predicate Counts<K(!new)>(m: map<K, int>, holders: multiset<K>) {
    forall k :: Count(m, k) == holders[k]
  }

  lemma IncCounts<K(!new)>(m: map<K, int>, holders: multiset<K>, k: K)
    requires Counts(m, holders)
    ensures Counts(Incremented(m, k), holders + multiset{k})
  {
    var m' := Incremented(m, k);
    forall j
      ensures Count(m', j) == (holders + multiset{k})[j]
    {
      assert Count(m, j) == holders[j];
    }
  }

  /** A holder that leaves finds a positive count: the repair branch is not taken. */
  lemma DecCounts<K(!new)>(m: map<K, int>, holders: multiset<K>, k: K)
    requires Counts(m, holders) && k in holders
    ensures k in m && m[k] > 0
    ensures Counts(Decremented(m, k), holders - multiset{k})
  {
    assert Count(m, k) == holders[k];
    var m' := Decremented(m, k);
    forall j
      ensures Count(m', j) == (holders - multiset{k})[j]
    {
      assert Count(m, j) == holders[j];
    }
  }

  lemma SweepCounts<K(!new)>(m: map<K, int>, holders: multiset<K>)
    requires Counts(m, holders)
    ensures Counts(Swept(m), holders)
  {
    var m' := Swept(m);
    forall j
      ensures Count(m', j) == holders[j]
    {
      assert Count(m, j) == holders[j];
    }
  }

  /** What a sweep leaves are the keys with a holder. */
  lemma SweepLeaves<K(!new)>(m: map<K, int>, holders: multiset<K>, k: K)
    requires Counts(m, holders)
    ensures k in Swept(m) <==> k in holders
  {
    assert Count(m, k) == holders[k];
  }

  lemma {:induction false} SumCounts<K(!new)>(m: map<K, int>, holders: multiset<K>)
    requires Counts(m, holders)
    ensures Sum(m) == |holders|
    decreases |m|
  {
    if m == map[] {
      forall k
        ensures holders[k] == 0
      {
        assert Count(m, k) == holders[k];
      }
      assert holders == multiset{};
    } else {
      var k :| k in m && Sum(m) == m[k] + Sum(m - {k});
      assert Count(m, k) == holders[k];
      var rest := holders[k := 0];
      forall j
        ensures Count(m - {k}, j) == rest[j]
      {
        assert Count(m, j) == holders[j];
      }
      SumCounts(m - {k}, rest);
    }
  }

  /** The table behind both trackers. */
  class InFlight<K(==, !new)> {
    var inner: map<K, int>

    constructor ()
      ensures inner == map[]
    {
      inner := map[];
    }

    method Inc(k: K) returns (n: int)
      modifies this
      ensures inner == Incremented(old(inner), k) && n == inner[k]
    {
      if k !in inner { inner := inner[k := 0]; }
      inner := inner[k := inner[k] + 1];
      n := inner[k];
    }

    method Dec(k: K)
      modifies this
      ensures inner == Decremented(old(inner), k)
    {
      if k in inner {
        var prev := inner[k];
        inner := inner[k := prev - 1];
        if prev <= 0 { inner := inner[k := 0]; }
      }
    }

    method Current(k: K) returns (n: int)
      ensures n == Count(inner, k)
    {
      n := if k in inner then inner[k] else 0;
    }

    method Gc()
      modifies this
      ensures inner == Swept(old(inner))
    {
      inner := map k | k in inner && inner[k] > 0 :: inner[k];
    }

    method Total() returns (sum: int)
      ensures sum == Sum(inner)
    {
      sum := 0;
      var rest := inner;
      while rest != map[]
        invariant rest.Keys <= inner.Keys && forall k | k in rest :: rest[k] == inner[k]
        invariant sum + Sum(rest) == Sum(inner)
        decreases |rest|
      {
        var k :| k in rest;
        SumRemove(rest, k);
        sum := sum + rest[k];
        rest := rest - {k};
      }
    }
  }
}
