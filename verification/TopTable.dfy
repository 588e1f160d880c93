/** The bounded hit counters behind the dashboard's top lists: a table of at most 4096 keys that, when
    full, makes room for a new key by dropping one of the first few its iterator comes upon. */
module TopTable {
  import opened Words
  import Window

  const PER_KEY_CAP: nat := 4096
  const SCAN: nat := 32

  /** What the iterator may yield first. */
  predicate FirstFew<K>(m: map<K, nat>, scan: seq<K>) {
    && |scan| == Min(SCAN, |m|)
    && (forall i | 0 <= i < |scan| :: scan[i] in m)
    && (forall i, j | 0 <= i < j < |scan| :: scan[i] != scan[j])
  }

  /** The first key of least count among the first n scanned. */
  function Least<K>(m: map<K, nat>, scan: seq<K>, n: nat): (k: K)
    requires 0 < n <= |scan| && forall i | 0 <= i < |scan| :: scan[i] in m
    ensures k in m && forall i | 0 <= i < n :: m[k] <= m[scan[i]]
  {
    if n == 1 then scan[0]
    else
      var k := Least(m, scan, n - 1);
      if m[scan[n - 1]] < m[k] then scan[n - 1] else k
  }

  function Roomier<K>(m: map<K, nat>, scan: seq<K>): map<K, nat> {
    if |m| >= PER_KEY_CAP && FirstFew(m, scan) then m - {Least(m, scan, |scan|)} else m
  }

  function Bumped<K>(m: map<K, nat>, k: K, scan: seq<K>): map<K, nat> {
    if k in m then m[k := m[k] + 1] else Roomier(m, scan)[k := 1]
  }

  function HitsOf<K>(m: map<K, nat>, k: K): nat {
    if k in m then m[k] else 0
  }

  /** The observed key is in the table afterwards, full or not, with one hit more; every other key keeps its
      hits, but for one that is dropped when the key is new and the table full. */
  lemma ObservedIsIn<K>(m: map<K, nat>, k: K, scan: seq<K>)
    requires FirstFew(m, scan)
    ensures var m' := Bumped(m, k, scan);
      && k in m' && m'[k] == HitsOf(m, k) + 1
      && (forall j | j in m' && j != k :: j in m && m'[j] == m[j])
      && (k in m || |m| < 4096 ==> forall j | j in m :: j in m')
      && (k !in m && |m| >= 4096 ==>
            exists gone :: gone in m && gone !in m' && forall j | j in m && j != gone :: j in m')
  {
    if k !in m && |m| >= PER_KEY_CAP {
      var gone := Least(m, scan, |scan|);
      assert gone in m && gone !in Bumped(m, k, scan);
    }
  }

  // ---- Whole runs ----

  /** One observation, and what the iterator yields should the table be full. */
  datatype Hit<K> = Hit(key: K, scan: seq<K>)

  function After<K>(run: seq<Hit<K>>, n: nat): map<K, nat>
    requires n <= |run|
  {
    if n == 0 then map[] else Bumped(After(run, n - 1), run[n - 1].key, run[n - 1].scan)
  }

  /** The first n observations saw what an iterator could yield. */
  predicate Possible<K(==)>(run: seq<Hit<K>>, n: nat)
    requires n <= |run|
  {
    n > 0 ==> Possible(run, n - 1) && FirstFew(After(run, n - 1), run[n - 1].scan)
  }

  function Keys<K>(run: seq<Hit<K>>, n: nat): set<K>
    requires n <= |run|
  {
    if n == 0 then {} else Keys(run, n - 1) + {run[n - 1].key}
  }

  function Hits<K(==)>(run: seq<Hit<K>>, n: nat, k: K): nat
    requires n <= |run|
  {
    if n == 0 then 0 else Hits(run, n - 1, k) + (if run[n - 1].key == k then 1 else 0)
  }

  lemma RoomierSize<K>(m: map<K, nat>, scan: seq<K>)
    requires |m| <= PER_KEY_CAP && FirstFew(m, scan)
    ensures |Roomier(m, scan)| == Min(|m|, PER_KEY_CAP - 1)
  {
    if |m| == PER_KEY_CAP {
      var k := Least(m, scan, |scan|);
      assert (m - {k}).Keys == m.Keys - {k};
      assert |m.Keys - {k}| == |m.Keys| - 1;
    }
  }

  lemma BumpedSize<K>(m: map<K, nat>, k: K, scan: seq<K>)
    requires |m| <= PER_KEY_CAP && FirstFew(m, scan)
    ensures |Bumped(m, k, scan)| <= PER_KEY_CAP
  {
    RoomierSize(m, scan);
    if k in m {
      assert m[k := m[k] + 1].Keys == m.Keys;
    } else {
      assert Roomier(m, scan)[k := 1].Keys == Roomier(m, scan).Keys + {k};
    }
  }

  /** A key that is in the table after an observation has what it had before, and the hit if it is its own. */
  lemma BumpedCount<K>(m: map<K, nat>, k: K, scan: seq<K>, j: K)
    requires j in Bumped(m, k, scan)
    ensures Bumped(m, k, scan)[j] == (if j in m then m[j] else 0) + (if j == k then 1 else 0)
  {
  }

  lemma {:induction false} NeverOvercounts<K>(run: seq<Hit<K>>, n: nat, k: K)
    requires n <= |run| && k in After(run, n)
    ensures 0 < After(run, n)[k] <= Hits(run, n, k)
  {
    if n > 0 {
      BumpedCount(After(run, n - 1), run[n - 1].key, run[n - 1].scan, k);
      if k in After(run, n - 1) { NeverOvercounts(run, n - 1, k); }
    }
  }

  lemma {:induction false} SizeBounded<K>(run: seq<Hit<K>>, n: nat)
    requires n <= |run| && Possible(run, n)
    ensures |After(run, n)| <= PER_KEY_CAP
  {
    if n > 0 {
      var (m, h) := (After(run, n - 1), run[n - 1]);
      SizeBounded(run, n - 1);
      BumpedSize(m, h.key, h.scan);
    }
  }

  /** The table never outgrows its cap, and no key is ever credited with more hits than it had. */
  lemma Bounded<K>(run: seq<Hit<K>>, n: nat)
    requires n <= |run| && Possible(run, n)
    ensures |After(run, n)| <= PER_KEY_CAP
    ensures forall k | k in After(run, n) :: 0 < After(run, n)[k] <= Hits(run, n, k)
  {
    SizeBounded(run, n);
    forall k | k in After(run, n)
      ensures 0 < After(run, n)[k] <= Hits(run, n, k)
    {
      NeverOvercounts(run, n, k);
    }
  }

  /** Every key there was, with every hit it had. */
  ghost predicate Exact<K(!new)>(run: seq<Hit<K>>, n: nat)
    requires n <= |run|
  {
    After(run, n).Keys == Keys(run, n) && forall k | k in After(run, n) :: After(run, n)[k] == Hits(run, n, k)
  }

  lemma {:induction false} NoHits<K>(run: seq<Hit<K>>, n: nat, k: K)
    requires n <= |run| && k !in Keys(run, n)
    ensures Hits(run, n, k) == 0
  {
    if n > 0 { NoHits(run, n - 1, k); }
  }

  lemma ExactStep<K(!new)>(run: seq<Hit<K>>, n: nat)
    requires n < |run| && Exact(run, n) && |Keys(run, n + 1)| <= PER_KEY_CAP
    ensures Exact(run, n + 1)
  {
    var (m, k) := (After(run, n), run[n].key);
    if k !in m {
      NoHits(run, n, k);
      assert |Keys(run, n) + {k}| == |Keys(run, n)| + 1;
      assert |m| == |m.Keys| < PER_KEY_CAP;
    }
  }

  lemma {:induction false} ExactWhileRoomy<K(!new)>(run: seq<Hit<K>>, n: nat)
    requires n <= |run| && |Keys(run, n)| <= PER_KEY_CAP
    ensures Exact(run, n)
  {
    if n > 0 {
      Window.SubsetSize(Keys(run, n - 1), Keys(run, n));
      ExactWhileRoomy(run, n - 1);
      ExactStep(run, n - 1);
    }
  }

  /** The table is exact as long as no more keys than fit have been seen, and never after. */
  lemma ExactExactly<K(!new)>(run: seq<Hit<K>>, n: nat)
    requires n <= |run| && Possible(run, n)
    ensures Exact(run, n) <==> |Keys(run, n)| <= PER_KEY_CAP
  {
    if |Keys(run, n)| <= PER_KEY_CAP {
      ExactWhileRoomy(run, n);
    } else {
      Bounded(run, n);
      assert |After(run, n)| == |After(run, n).Keys|;
    }
  }

  /** The least is the first of its count. */
  lemma {:induction false} LeastIsFirst<K>(m: map<K, nat>, scan: seq<K>, n: nat) returns (i: nat)
    requires 0 < n <= |scan| && forall i | 0 <= i < |scan| :: scan[i] in m
    ensures i < n && scan[i] == Least(m, scan, n) && forall j | 0 <= j < i :: m[scan[i]] < m[scan[j]]
  {
    if n == 1 {
      i := 0;
    } else {
      i := LeastIsFirst(m, scan, n - 1);
      if m[scan[n - 1]] < m[Least(m, scan, n - 1)] { i := n - 1; }
    }
  }

  /** The entry that is dropped has the least count of the 32 scanned, and is the first of those. */
  lemma DroppedIsLeastScanned<K>(m: map<K, nat>, k: K, scan: seq<K>, gone: K) returns (i: nat)
    requires FirstFew(m, scan) && k !in m && gone in m && gone !in Bumped(m, k, scan)
    ensures |m| >= 4096 && |scan| == 32 && forall j | 0 <= j < 32 :: m[gone] <= m[scan[j]]
    ensures i < 32 && scan[i] == gone && forall j | 0 <= j < i :: m[gone] < m[scan[j]]
  {
    i := LeastIsFirst(m, scan, |scan|);
  }

  /** A full table whose first `hot` keys have two hits each and the rest one. */
  function Mixed(n: nat, hot: nat): (m: map<nat, nat>)
    ensures |m| == n && forall i: nat :: i in m <==> i < n
    ensures forall i: nat | i < n :: m[i] == if i < hot then 2 else 1
  {
    if n == 0 then map[]
    else
      var before := Mixed(n - 1, hot);
      assert before[n - 1 := if n - 1 < hot then 2 else 1].Keys == before.Keys + {n - 1};
      before[n - 1 := if n - 1 < hot then 2 else 1]
  }

  lemma {:induction false} LeastIsScanned<K>(m: map<K, nat>, scan: seq<K>, n: nat)
    requires 0 < n <= |scan| && forall i | 0 <= i < |scan| :: scan[i] in m
    ensures Least(m, scan, n) in scan
  {
    if n > 1 { LeastIsScanned(m, scan, n - 1); }
  }

  /** The observation of k drops an entry and leaves one of a lower count. */
  predicate Misjudges<K>(m: map<K, nat>, k: K, scan: seq<K>, gone: K, colder: K) {
    && FirstFew(m, scan) && gone in m && gone !in Bumped(m, k, scan)
    && colder in m && colder in Bumped(m, k, scan) && m[colder] < m[gone]
  }

  lemma LeastGoes<K>(m: map<K, nat>, k: K, scan: seq<K>, colder: K)
    requires FirstFew(m, scan) && |m| == PER_KEY_CAP && k !in m
    requires colder in m && forall i | 0 <= i < |scan| :: m[colder] < m[scan[i]]
    ensures Misjudges(m, k, scan, Least(m, scan, |scan|), colder)
  {
    LeastIsScanned(m, scan, |scan|);
  }

  function UpTo(n: nat): (s: seq<nat>)
    ensures |s| == n && forall i | 0 <= i < n :: s[i] == i
  {
    if n == 0 then [] else UpTo(n - 1) + [n - 1]
  }

  /** Which need not be the least of all: the scan may see only keys that others fall behind. */
  lemma DroppedIsNotLeast()
    ensures exists m: map<nat, nat>, k: nat, scan: seq<nat>, gone: nat, colder: nat ::
      Misjudges(m, k, scan, gone, colder)
  {
    var (m, scan) := (Mixed(PER_KEY_CAP, SCAN), UpTo(SCAN));
    LeastGoes(m, PER_KEY_CAP, scan, SCAN);
  }

  /** One observation: the loop over the scanned entries, the removal, and the count. */
  method Bump<K(==)>(m0: map<K, nat>, k: K, scan: seq<K>) returns (m: map<K, nat>)
    requires FirstFew(m0, scan)
    ensures m == Bumped(m0, k, scan)
  {
    m := m0;
    if k in m { return m[k := m[k] + 1]; }
    if |m| >= PER_KEY_CAP {
      var minKey: Option<K> := None;
      var i := 0;
      while i < |scan|
        invariant i <= |scan| && minKey == if i == 0 then None else Some(Least(m, scan, i))
      {
        if minKey.None? || m[scan[i]] < m[minKey.value] { minKey := Some(scan[i]); }
        i := i + 1;
      }
      if minKey.Some? { m := m - {minKey.value}; }
    }
    m := m[k := 1];
  }
}
