/** Hit counters over six ten-second slots: a ring of buckets that stands in for a log of
    timestamps. The rate limiter and the subnet tracker each keep a table of them. */
module Window {
  import opened Words

  const BUCKETS: nat := 6
  const BUCKET_SECS: nat := 10

  function Slot(t: nat): nat { t / BUCKET_SECS }

  // ---- The specification: counting in a log ----

  /** How many logged times fall in slots lo..hi. */
  ghost function HitsIn(log: seq<nat>, lo: int, hi: int): nat {
    |set i | 0 <= i < |log| && lo <= Slot(log[i]) <= hi|
  }

  /** How many logged times fall in the seconds lo..hi. */
  ghost function TimesIn(log: seq<nat>, lo: int, hi: int): nat {
    |set i | 0 <= i < |log| && lo <= log[i] <= hi|
  }

  /** The hits in slot s and the five before it. */
  ghost function Six(log: seq<nat>, s: int): nat {
    HitsIn(log, s - 5, s)
  }

  /** The hits of the slot of `now` and the five before it. */
  ghost function Recent(log: seq<nat>, now: nat): nat {
    Six(log, Slot(now))
  }

  ghost predicate UpTo(log: seq<nat>, now: nat) {
    forall i | 0 <= i < |log| :: log[i] <= now
  }

  /** Nothing in the log can still count at `now`. */
  ghost predicate Cold(log: seq<nat>, now: nat) {
    forall i | 0 <= i < |log| :: Slot(log[i]) + BUCKETS <= Slot(now)
  }

  lemma SubsetSize<T>(a: set<T>, b: set<T>)
    requires a <= b
    ensures |a| <= |b|
  {
    assert b == a + (b - a);
  }

  lemma HitsSnoc(log: seq<nat>, t: nat, lo: int, hi: int)
    ensures HitsIn(log + [t], lo, hi) == HitsIn(log, lo, hi) + (if lo <= Slot(t) <= hi then 1 else 0)
  {
    var before := set i | 0 <= i < |log| && lo <= Slot(log[i]) <= hi;
    var after := set i | 0 <= i < |log + [t]| && lo <= Slot((log + [t])[i]) <= hi;
    assert after == if lo <= Slot(t) <= hi then before + {|log|} else before;
  }

  lemma TimesSnoc(log: seq<nat>, t: nat, lo: int, hi: int)
    ensures TimesIn(log + [t], lo, hi) == TimesIn(log, lo, hi) + (if lo <= t <= hi then 1 else 0)
  {
    var before := set i | 0 <= i < |log| && lo <= log[i] <= hi;
    var after := set i | 0 <= i < |log + [t]| && lo <= (log + [t])[i] <= hi;
    assert after == if lo <= t <= hi then before + {|log|} else before;
  }

  lemma HitsSplit(log: seq<nat>, lo: int, mid: int, hi: int)
    requires lo <= mid + 1 && mid <= hi
    ensures HitsIn(log, lo, hi) == HitsIn(log, lo, mid) + HitsIn(log, mid + 1, hi)
  {
    var left := set i | 0 <= i < |log| && lo <= Slot(log[i]) <= mid;
    var right := set i | 0 <= i < |log| && mid + 1 <= Slot(log[i]) <= hi;
    assert (set i | 0 <= i < |log| && lo <= Slot(log[i]) <= hi) == left + right;
    assert left !! right;
  }

  lemma NoHits(log: seq<nat>, lo: int, hi: int)
    requires forall i | 0 <= i < |log| :: !(lo <= Slot(log[i]) <= hi)
    ensures HitsIn(log, lo, hi) == 0
  {
    assert (set i | 0 <= i < |log| && lo <= Slot(log[i]) <= hi) == {};
  }

  lemma NoTimes(log: seq<nat>, lo: int, hi: int)
    requires forall i | 0 <= i < |log| :: !(lo <= log[i] <= hi)
    ensures TimesIn(log, lo, hi) == 0
  {
    assert (set i | 0 <= i < |log| && lo <= log[i] <= hi) == {};
  }

  lemma HitCounts(log: seq<nat>, i: nat)
    requires i < |log|
    ensures HitsIn(log, Slot(log[i]), Slot(log[i])) > 0
  {
    SubsetSize({i}, set j | 0 <= j < |log| && Slot(log[i]) <= Slot(log[j]) <= Slot(log[i]));
  }

  lemma HitsGrow(log: seq<nat>, lo: int, hi: int, lo': int, hi': int)
    requires lo' <= lo && hi <= hi'
    ensures HitsIn(log, lo, hi) <= HitsIn(log, lo', hi')
  {
    SubsetSize(set i | 0 <= i < |log| && lo <= Slot(log[i]) <= hi,
               set i | 0 <= i < |log| && lo' <= Slot(log[i]) <= hi');
  }

  /** Seconds lo..hi are covered by the slots they lie in. */
  lemma TimesToHits(log: seq<nat>, lo: int, hi: int, slo: int, shi: int)
    requires slo * BUCKET_SECS <= lo && hi < (shi + 1) * BUCKET_SECS
    ensures TimesIn(log, lo, hi) <= HitsIn(log, slo, shi)
  {
    SubsetSize(set i | 0 <= i < |log| && lo <= log[i] <= hi,
               set i | 0 <= i < |log| && slo <= Slot(log[i]) <= shi);
  }

  /** The six slots up to n, one by one. */
  lemma SixSlots(log: seq<nat>, n: int)
    ensures HitsIn(log, n - 5, n)
         == HitsIn(log, n - 5, n - 5) + HitsIn(log, n - 4, n - 4) + HitsIn(log, n - 3, n - 3)
          + HitsIn(log, n - 2, n - 2) + HitsIn(log, n - 1, n - 1) + HitsIn(log, n, n)
  {
    HitsSplit(log, n - 5, n - 5, n);
    HitsSplit(log, n - 4, n - 4, n);
    HitsSplit(log, n - 3, n - 3, n);
    HitsSplit(log, n - 2, n - 2, n);
    HitsSplit(log, n - 1, n - 1, n);
  }

  // ---- The ring ----

  class Counter {
    const buckets: array<nat>
    var headSecs: nat

    /** Each of the six slots up to the head's holds the number of logged hits in that slot. */
    ghost predicate Represents(log: seq<nat>)
      reads this, buckets
    {
      && buckets.Length == BUCKETS
      && UpTo(log, headSecs)
      && forall s: int | Slot(headSecs) - BUCKETS < s <= Slot(headSecs) ::
           buckets[s % BUCKETS] == HitsIn(log, s, s)
    }

    /** `log` is all this counter's key ever saw by `now`, or all of it is too old to count and
        the counter is new. */
    ghost predicate Covers(log: seq<nat>, now: nat)
      reads this, buckets
    {
      headSecs <= now && UpTo(log, now) && (Represents(log) || (Represents([]) && Cold(log, now)))
    }

    lemma CoversLater(log: seq<nat>, now: nat, later: nat)
      requires Covers(log, now) && now <= later
      ensures Covers(log, later)
    {
    }

    /** Empty buckets mean that nothing in the log can still count. */
    lemma IdleIsCold(log: seq<nat>, now: nat)
      requires Covers(log, now) && Total(buckets[..]) == 0
      ensures Cold(log, now)
    {
      if Represents(log) {
        SumOfSix(buckets[..]);
        forall i | 0 <= i < |log|
          ensures Slot(log[i]) + BUCKETS <= Slot(headSecs)
        {
          var s := Slot(log[i]);
          if s > Slot(headSecs) - BUCKETS { HitCounts(log, i); }
        }
      }
    }

    constructor ()
      ensures Represents([]) && headSecs == 0
      ensures fresh(buckets)
    {
      buckets := new nat[BUCKETS](i => 0);
      headSecs := 0;
    }

    method ClearAll()
      requires buckets.Length == BUCKETS
      modifies buckets
      ensures forall k | 0 <= k < BUCKETS :: buckets[k] == 0
    {
      var j := 0;
      while j < BUCKETS
        invariant j <= BUCKETS && forall k | 0 <= k < j :: buckets[k] == 0
      {
        buckets[j] := 0;
        j := j + 1;
      }
    }

    /** Clear the buckets of the `drift` slots after `head`. */
    method ClearPassed(head: nat, drift: nat)
      requires buckets.Length == BUCKETS && drift < BUCKETS
      modifies buckets
      ensures forall s: int | head + drift - BUCKETS < s <= head + drift ::
        buckets[s % BUCKETS] == if s <= head then old(buckets[s % BUCKETS]) else 0
    {
      var i := 0;
      while i < drift
        invariant i <= drift
        invariant forall s: int | head + drift - BUCKETS < s <= head + drift ::
            buckets[s % BUCKETS] == if head < s <= head + i then 0 else old(buckets[s % BUCKETS])
      {
        var next := head + i + 1;
        buckets[next % BUCKETS] := 0;
        i := i + 1;
      }
    }

    /** Clear the buckets of the slots passed over since the head. */
    method Advance(now: nat)
      requires buckets.Length == BUCKETS && headSecs <= now
      modifies this, buckets
      ensures headSecs == now
      ensures forall s: int | Slot(now) - BUCKETS < s <= Slot(now) ::
        buckets[s % BUCKETS] == if s <= Slot(old(headSecs)) then old(buckets[s % BUCKETS]) else 0
    {
      var headBucket := Slot(headSecs);
      var drift := SatSub(Slot(now), headBucket);
      if drift >= BUCKETS { ClearAll(); } else { ClearPassed(headBucket, drift); }
      headSecs := now;
    }

    /** Record a hit; `log` is what the counter has seen, or anything too old to count for a
        counter that has seen nothing. */
    method Hit(now: nat, ghost log: seq<nat>) returns (count: nat)
      requires Covers(log, now) && Recent(log, now) < U32_MAX
      modifies this, buckets
      ensures Represents(log + [now]) && headSecs == now
      ensures count == Recent(log + [now], now)
    {
      forall s: int | Slot(now) - BUCKETS < s <= Slot(now)
        ensures HitsIn(log, s, s) == if s <= Slot(headSecs) then buckets[s % BUCKETS] else 0
      {
        if s > Slot(headSecs) || !Represents(log) { NoHits(log, s, s); }
      }
      Advance(now);
      var idx := Slot(now) % BUCKETS;
      HitsGrow(log, Slot(now), Slot(now), Slot(now) - 5, Slot(now));
      buckets[idx] := SatAdd32(buckets[idx], 1);
      forall s: int | Slot(now) - BUCKETS < s <= Slot(now)
        ensures buckets[s % BUCKETS] == HitsIn(log + [now], s, s)
      {
        HitsSnoc(log, now, s, s);
      }
      count := Sum(log + [now]);
    }

    method Sum(ghost log: seq<nat>) returns (total: nat)
      requires Represents(log)
      ensures total == Recent(log, headSecs)
    {
      total := 0;
      var i := 0;
      while i < BUCKETS
        invariant i <= BUCKETS
        invariant total == Total(buckets[..i])
      {
        assert buckets[..i + 1][..i] == buckets[..i];
        total := total + buckets[i];
        i := i + 1;
      }
      assert buckets[..BUCKETS] == buckets[..];
      RingTotal(buckets[..], Slot(headSecs));
      SixSlots(log, Slot(headSecs));
    }
  }

  function Total(bs: seq<nat>): nat {
    if bs == [] then 0 else Total(bs[..|bs| - 1]) + bs[|bs| - 1]
  }

  lemma SumOfSix(bs: seq<nat>)
    requires |bs| == BUCKETS
    ensures Total(bs) == bs[0] + bs[1] + bs[2] + bs[3] + bs[4] + bs[5]
  {
    forall k | 0 <= k < BUCKETS
      ensures Total(bs[..k + 1]) == Total(bs[..k]) + bs[k]
    {
      assert bs[..k + 1][..k] == bs[..k];
    }
    assert bs[..BUCKETS] == bs;
    calc {
      Total(bs[..6]);
      Total(bs[..5]) + bs[5];
      Total(bs[..4]) + bs[4] + bs[5];
      Total(bs[..3]) + bs[3] + bs[4] + bs[5];
      Total(bs[..2]) + bs[2] + bs[3] + bs[4] + bs[5];
      Total(bs[..1]) + bs[1] + bs[2] + bs[3] + bs[4] + bs[5];
    }
  }

  lemma IndexBack(n: int, d: nat)
    requires d < BUCKETS
    ensures (n - d) % BUCKETS == if d <= n % BUCKETS then n % BUCKETS - d else n % BUCKETS - d + BUCKETS
  {
  }

  /** Six consecutive slots meet each bucket once. */
  lemma RingTotal(bs: seq<nat>, n: int)
    requires |bs| == BUCKETS
    ensures Total(bs) == bs[(n - 5) % BUCKETS] + bs[(n - 4) % BUCKETS] + bs[(n - 3) % BUCKETS]
                       + bs[(n - 2) % BUCKETS] + bs[(n - 1) % BUCKETS] + bs[n % BUCKETS]
  {
    SumOfSix(bs);
    IndexBack(n, 1);
    IndexBack(n, 2);
    IndexBack(n, 3);
    IndexBack(n, 4);
    IndexBack(n, 5);
    var r := n % BUCKETS;
    if r == 0 {} else if r == 1 {} else if r == 2 {} else if r == 3 {} else if r == 4 {} else {
      assert r == 5;
    }
  }

  // ---- A table of counters ----

  function Log<K>(hist: map<K, seq<nat>>, k: K): seq<nat> {
    if k in hist then hist[k] else []
  }

  function Logged<K>(hist: map<K, seq<nat>>, k: K, now: nat): map<K, seq<nat>> {
    hist[k := Log(hist, k) + [now]]
  }

  /** One counter per key, created on first use and swept when it has gone cold. `hist` is every
      hit ever made, which no sweep touches: the counts returned are functions of it alone. */
  class CounterTable<K(==)> {
    var counters: map<K, Counter>
    ghost var hist: map<K, seq<nat>>
    ghost var clock: nat
    ghost var Repr: set<object>

    ghost predicate Valid()
      reads this, Repr
      ensures Valid() ==> this in Repr
    {
      && this in Repr
      && (forall k | k in counters ::
            counters[k] in Repr && counters[k].buckets in Repr && counters[k].Covers(Log(hist, k), clock))
      && (forall k | k in hist :: UpTo(hist[k], clock))
      && (forall k | k in hist && k !in counters :: Cold(hist[k], clock))
      && (forall j, k | j in counters && k in counters && j != k :: counters[j].buckets != counters[k].buckets)
    }

    constructor ()
      ensures Valid() && fresh(Repr) && hist == map[] && clock == 0
    {
      counters, hist, clock := map[], map[], 0;
      Repr := {this};
    }

    /** The table's own entry for k, made now if there is none. */
    method Entry(k: K) returns (c: Counter)
      requires Valid()
      modifies this`counters, this`Repr
      ensures Valid() && fresh(Repr - old(Repr))
      ensures k in counters && c == counters[k]
    {
      if k !in counters {
        c := new Counter();
        counters := counters[k := c];
        Repr := Repr + {c, c.buckets};
      } else {
        c := counters[k];
      }
    }

    ghost method Tick(now: nat)
      requires Valid() && clock <= now
      modifies this`clock
      ensures Valid() && clock == now
    {
      forall k | k in counters
        ensures counters[k].Covers(Log(hist, k), now)
      {
        counters[k].CoversLater(Log(hist, k), clock, now);
      }
      clock := now;
    }

    method HitEntry(k: K, now: nat) returns (count: nat)
      requires Valid() && clock == now && k in counters && Recent(Log(hist, k), now) < U32_MAX
      modifies this`hist, counters[k], counters[k].buckets
      ensures Valid()
      ensures hist == Logged(old(hist), k, now)
      ensures count == Recent(Log(hist, k), now)
    {
      count := counters[k].Hit(now, Log(hist, k));
      ghost var before := hist;
      assert forall j | j in counters && j != k :: counters[j].Covers(Log(before, j), now);
      hist := Logged(hist, k, now);
      forall j | j in counters
        ensures counters[j].Covers(Log(hist, j), now)
      {
        assert j != k ==> Log(hist, j) == Log(before, j);
      }
    }

    method Bump(k: K, now: nat) returns (count: nat)
      requires Valid() && clock <= now && Recent(Log(hist, k), now) < U32_MAX
      modifies Repr
      ensures Valid() && fresh(Repr - old(Repr)) && clock == now
      ensures hist == Logged(old(hist), k, now)
      ensures count == Recent(Log(hist, k), now)
    {
      Tick(now);
      var c := Entry(k);
      count := HitEntry(k, now);
    }

    /** Drop all other counters; each has gone cold. */
    method Keep(kept: map<K, Counter>)
      requires Valid() && forall k | k in kept :: k in counters && kept[k] == counters[k]
      requires forall k | k in counters && k !in kept :: Cold(Log(hist, k), clock)
      modifies this`counters
      ensures Valid() && counters == kept
    {
      counters := kept;
    }

    lemma OldIsCold(k: K, maxAge: nat)
      requires Valid() && k in counters && clock - counters[k].headSecs >= maxAge >= BUCKETS * BUCKET_SECS
      ensures Cold(Log(hist, k), clock)
    {
    }

    lemma EmptyIsCold(k: K)
      requires Valid() && k in counters && counters[k].buckets.Length == BUCKETS && Total(counters[k].buckets[..]) == 0
      ensures Cold(Log(hist, k), clock)
    {
      counters[k].IdleIsCold(Log(hist, k), clock);
    }

    lemma IdleIsCold(k: K, maxAge: nat)
      requires Valid() && k in counters && counters[k].buckets.Length == BUCKETS && maxAge >= BUCKETS * BUCKET_SECS
      requires clock - counters[k].headSecs >= maxAge || Total(counters[k].buckets[..]) == 0
      ensures Cold(Log(hist, k), clock)
    {
      if clock - counters[k].headSecs >= maxAge { OldIsCold(k, maxAge); } else { EmptyIsCold(k); }
    }

    lemma IdleAreCold(maxAge: nat)
      requires Valid() && maxAge >= BUCKETS * BUCKET_SECS
      ensures forall k | k in counters && (clock - counters[k].headSecs >= maxAge
                                           || Total(counters[k].buckets[..]) == 0) :: Cold(Log(hist, k), clock)
    {
      forall k | k in counters && (clock - counters[k].headSecs >= maxAge || Total(counters[k].buckets[..]) == 0)
        ensures Cold(Log(hist, k), clock)
      {
        IdleIsCold(k, maxAge);
      }
    }

    /** Drop the counters whose last hit is `maxAge` seconds old or older. */
    method Gc(now: nat, maxAge: nat)
      requires Valid() && clock <= now && maxAge >= BUCKETS * BUCKET_SECS
      modifies this`counters, this`clock
      ensures Valid() && clock == now
      ensures forall k :: k in counters <==> k in old(counters) && now - old(counters[k].headSecs) < maxAge
    {
      Tick(now);
      forall k | k in counters && now - counters[k].headSecs >= maxAge
        ensures Cold(Log(hist, k), clock)
      {
        OldIsCold(k, maxAge);
      }
      Keep(map k | k in counters && SatSub(now, counters[k].headSecs) < maxAge :: counters[k]);
    }

    /** The subnet tracker's sweep: it also drops a counter whose buckets are all empty. */
    method GcIdle(now: nat, maxAge: nat)
      requires Valid() && clock <= now && maxAge >= BUCKETS * BUCKET_SECS
      modifies this`counters, this`clock
      ensures Valid() && clock == now
      ensures forall k :: k in counters <==>
        k in old(counters) && now - old(counters[k].headSecs) < maxAge && old(Total(counters[k].buckets[..])) > 0
    {
      Tick(now);
      IdleAreCold(maxAge);
      Keep(map k | k in counters && SatSub(now, counters[k].headSecs) < maxAge
                   && Total(counters[k].buckets[..]) > 0 :: counters[k]);
    }
  }

  /** Sixty seconds is the shortest age at which every counter a sweep drops has gone cold. */
  lemma SixtyIsExact(maxAge: nat)
    ensures (forall t: nat, now: nat | t + maxAge <= now :: Slot(t) + BUCKETS <= Slot(now))
            <==> maxAge >= BUCKETS * BUCKET_SECS
  {
    if maxAge < BUCKETS * BUCKET_SECS {
      assert 0 + maxAge <= maxAge && !(Slot(0) + BUCKETS <= Slot(maxAge));
    }
  }
}
