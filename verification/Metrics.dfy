/** The live-chart ring: sixty one-second buckets, each with a count per band, that stand in for a
    log of decisions. */
module Metrics {
  import TopTable
  import opened Decision
  import opened Words

  const RING_BUCKETS: nat := 60

  datatype Band = AllowedBand | ChallengedBand | BlockedBand

  /** A tarpitted request shows on the chart as a blocked one. */
  function BandOf(a: Action): Band {
    match a
    case Allow => AllowedBand
    case Challenge => ChallengedBand
    case Block => BlockedBand
    case Tarpit => BlockedBand
  }

  datatype Bucket = Bucket(allowed: nat, challenged: nat, blocked: nat)

  const EMPTY := Bucket(0, 0, 0)

  function Height(b: Bucket, band: Band): nat {
    match band
    case AllowedBand => b.allowed
    case ChallengedBand => b.challenged
    case BlockedBand => b.blocked
  }

  // ---- The specification: counting in a log ----

  datatype Entry = Entry(t: nat, action: Action)

  ghost function InSecond(log: seq<Entry>, s: int, band: Band): nat {
    |set i | 0 <= i < |log| && log[i].t == s && BandOf(log[i].action) == band|
  }

  ghost function Tally(log: seq<Entry>, a: Action): nat {
    |set i | 0 <= i < |log| && log[i].action == a|
  }

  lemma InSecondSnoc(log: seq<Entry>, e: Entry, s: int, band: Band)
    ensures InSecond(log + [e], s, band)
         == InSecond(log, s, band) + (if e.t == s && BandOf(e.action) == band then 1 else 0)
  {
    var r := log + [e];
    var before := set i | 0 <= i < |log| && log[i].t == s && BandOf(log[i].action) == band;
    var after := set i | 0 <= i < |r| && r[i].t == s && BandOf(r[i].action) == band;
    assert after == if e.t == s && BandOf(e.action) == band then before + {|log|} else before;
  }

  lemma TallySnoc(log: seq<Entry>, e: Entry, a: Action)
    ensures Tally(log + [e], a) == Tally(log, a) + (if e.action == a then 1 else 0)
  {
    var r := log + [e];
    var before := set i | 0 <= i < |log| && log[i].action == a;
    var after := set i | 0 <= i < |r| && r[i].action == a;
    assert after - {|log|} == before;
    assert |log| in after <==> e.action == a;
  }

  lemma TallyNothing(log: seq<Entry>, a: Action)
    requires forall i | 0 <= i < |log| :: log[i].action != a
    ensures Tally(log, a) == 0
  {
    assert (set i | 0 <= i < |log| && log[i].action == a) == {};
  }

  lemma NoneInSecond(log: seq<Entry>, s: int, band: Band)
    requires forall i | 0 <= i < |log| :: log[i].t != s
    ensures InSecond(log, s, band) == 0
  {
    assert (set i | 0 <= i < |log| && log[i].t == s && BandOf(log[i].action) == band) == {};
  }

  /** Bucket b holds, band by band, what the log has for second s. */
  ghost predicate Shows(b: Bucket, log: seq<Entry>, s: int) {
    forall band :: Height(b, band) == InSecond(log, s, band)
  }

  function Bumped(b: Bucket, a: Action): Bucket {
    match BandOf(a)
    case AllowedBand => b.(allowed := SatAdd32(b.allowed, 1))
    case ChallengedBand => b.(challenged := SatAdd32(b.challenged, 1))
    case BlockedBand => b.(blocked := SatAdd32(b.blocked, 1))
  }

  lemma ShowsNext(b: Bucket, log: seq<Entry>, e: Entry, s: int)
    requires Shows(b, log, s) && InSecond(log, e.t, BandOf(e.action)) < U32_MAX
    ensures Shows(if e.t == s then Bumped(b, e.action) else b, log + [e], s)
  {
    forall band
      ensures Height(if e.t == s then Bumped(b, e.action) else b, band) == InSecond(log + [e], s, band)
    {
      InSecondSnoc(log, e, s, band);
    }
  }

  lemma ShowsNone(log: seq<Entry>, s: int)
    requires forall i | 0 <= i < |log| :: log[i].t != s
    ensures Shows(EMPTY, log, s)
  {
    forall band
      ensures InSecond(log, s, band) == 0
    {
      NoneInSecond(log, s, band);
    }
  }

  /** Sixty consecutive seconds have a bucket each. */
  lemma OneBucketEach(a: int, b: int)
    requires a - b < RING_BUCKETS && b - a < RING_BUCKETS && a % RING_BUCKETS == b % RING_BUCKETS
    ensures a == b
  {
  }

  class Ring {
    const buckets: array<Bucket>
    /** Zero until the first record. */
    var headSecs: nat

    /** Every bucket shows its own second among the sixty that end at the head. */
    ghost predicate Represents(log: seq<Entry>)
      reads this, buckets
    {
      && buckets.Length == RING_BUCKETS
      && (forall i | 0 <= i < |log| :: 0 < log[i].t <= headSecs)
      && (if headSecs == 0 then forall k | 0 <= k < RING_BUCKETS :: buckets[k] == EMPTY
          else forall s: int | headSecs - RING_BUCKETS < s <= headSecs :: Shows(buckets[s % RING_BUCKETS], log, s))
    }

    constructor ()
      ensures Represents([]) && headSecs == 0 && fresh(buckets)
    {
      buckets := new Bucket[RING_BUCKETS](i => EMPTY);
      headSecs := 0;
    }

    method ClearAll()
      requires buckets.Length == RING_BUCKETS
      modifies buckets
      ensures forall k | 0 <= k < RING_BUCKETS :: buckets[k] == EMPTY
    {
      var j := 0;
      while j < RING_BUCKETS
        invariant j <= RING_BUCKETS && forall k | 0 <= k < j :: buckets[k] == EMPTY
      {
        buckets[j] := EMPTY;
        j := j + 1;
      }
    }

    /** Empty the buckets of the `drift` seconds after the head. */
    method ClearPassed(drift: nat)
      requires buckets.Length == RING_BUCKETS && drift < RING_BUCKETS
      modifies buckets
      ensures forall s: int | headSecs + drift - RING_BUCKETS < s <= headSecs + drift ::
        buckets[s % RING_BUCKETS] == if s <= headSecs then old(buckets[s % RING_BUCKETS]) else EMPTY
    {
      var i := 0;
      while i < drift
        invariant i <= drift
        invariant forall s: int | headSecs + drift - RING_BUCKETS < s <= headSecs + drift ::
            buckets[s % RING_BUCKETS] == if headSecs < s <= headSecs + i then EMPTY else old(buckets[s % RING_BUCKETS])
      {
        var next := headSecs + i + 1;
        forall s: int | headSecs + drift - RING_BUCKETS < s <= headSecs + drift && s != next
          ensures s % RING_BUCKETS != next % RING_BUCKETS
        {
          if s % RING_BUCKETS == next % RING_BUCKETS { OneBucketEach(s, next); }
        }
        buckets[next % RING_BUCKETS] := EMPTY;
        i := i + 1;
      }
    }

    /** Move the head to `now`, emptying the buckets of the seconds passed over. */
    method Advance(now: nat)
      requires buckets.Length == RING_BUCKETS && 0 < now && headSecs <= now
      requires headSecs == 0 ==> forall k | 0 <= k < RING_BUCKETS :: buckets[k] == EMPTY
      modifies this, buckets
      ensures headSecs == now
      ensures forall s: int | now - RING_BUCKETS < s <= now ::
        buckets[s % RING_BUCKETS] == if s <= old(headSecs) then old(buckets[s % RING_BUCKETS]) else EMPTY
    {
      if headSecs == 0 { headSecs := now; return; }
      var drift := SatSub(now, headSecs);
      if drift >= RING_BUCKETS { ClearAll(); } else { ClearPassed(drift); }
      headSecs := now;
    }

    /** After a record the sixty buckets hold, second by second and band by band, exactly the
        records of the sixty seconds up to it. */
    method Record(now: nat, action: Action, ghost log: seq<Entry>)
      requires Represents(log) && 0 < now && headSecs <= now && InSecond(log, now, BandOf(action)) < U32_MAX
      modifies this, buckets
      ensures Represents(log + [Entry(now, action)]) && headSecs == now
      ensures buckets.Length == 60
      ensures forall s: int | now - 60 < s <= now :: Shows(buckets[s % 60], log + [Entry(now, action)], s)
    {
      forall s: int | headSecs < s <= now
        ensures Shows(EMPTY, log, s)
      {
        ShowsNone(log, s);
      }
      forall s: int | s <= 0
        ensures Shows(EMPTY, log, s)
      {
        ShowsNone(log, s);
      }
      Advance(now);
      var idx := now % RING_BUCKETS;
      ghost var was := buckets[..];
      assert forall s: int | now - RING_BUCKETS < s <= now :: Shows(was[s % RING_BUCKETS], log, s);
      buckets[idx] := Bumped(buckets[idx], action);
      forall s: int | now - RING_BUCKETS < s <= now
        ensures Shows(buckets[s % RING_BUCKETS], log + [Entry(now, action)], s)
      {
        ShowsNext(was[s % RING_BUCKETS], log, Entry(now, action), s);
      }
    }
  }

  /** What a decision is counted under besides its action. */
  datatype Subject = Subject(ip: string, path: string, country: Option<string>, rule: Option<string>)

  datatype Tables = Tables(byIp: map<string, nat>, byPath: map<string, nat>, byCountry: map<string, nat>,
                           byRule: map<string, nat>)

  /** What the iterators of the four tables would yield. */
  datatype Scans = Scans(ip: seq<string>, path: seq<string>, country: seq<string>, rule: seq<string>)

  predicate Scannable(t: Tables, s: Scans) {
    && TopTable.FirstFew(t.byIp, s.ip) && TopTable.FirstFew(t.byPath, s.path)
    && TopTable.FirstFew(t.byCountry, s.country) && TopTable.FirstFew(t.byRule, s.rule)
  }

  function BumpedIf(m: map<string, nat>, k: Option<string>, scan: seq<string>): map<string, nat> {
    if k.Some? then TopTable.Bumped(m, k.value, scan) else m
  }

  function TablesAfter(t: Tables, x: Subject, s: Scans): Tables {
    Tables(TopTable.Bumped(t.byIp, x.ip, s.ip), TopTable.Bumped(t.byPath, x.path, s.path),
           BumpedIf(t.byCountry, x.country, s.country), BumpedIf(t.byRule, x.rule, s.rule))
  }

  /** On the chart a challenge is a challenge, and a tarpitted request a blocked one; no band reaches past
      32 bits. */
  lemma ChartedAs(b: Bucket)
    requires b.allowed < U32_MAX && b.challenged < U32_MAX && b.blocked < U32_MAX
    ensures Bumped(b, Allow) == Bucket(b.allowed + 1, b.challenged, b.blocked)
    ensures Bumped(b, Challenge) == Bucket(b.allowed, b.challenged + 1, b.blocked)
    ensures Bumped(b, Block) == Bumped(b, Tarpit) == Bucket(b.allowed, b.challenged, b.blocked + 1)
  {
  }

  /** Afterwards the decision is on record under its own address, path, country and rule, with one hit more
      than before; where it has no country or rule that table is as it was. */
  lemma RecordedUnderEach(t: Tables, x: Subject, s: Scans)
    requires Scannable(t, s)
    ensures var t' := TablesAfter(t, x, s);
      && x.ip in t'.byIp && t'.byIp[x.ip] == TopTable.HitsOf(t.byIp, x.ip) + 1
      && x.path in t'.byPath && t'.byPath[x.path] == TopTable.HitsOf(t.byPath, x.path) + 1
      && (match x.country
          case Some(c) => c in t'.byCountry && t'.byCountry[c] == TopTable.HitsOf(t.byCountry, c) + 1
          case None => t'.byCountry == t.byCountry)
      && (match x.rule
          case Some(r) => r in t'.byRule && t'.byRule[r] == TopTable.HitsOf(t.byRule, r) + 1
          case None => t'.byRule == t.byRule)
  {
  }

  class Metrics {
    var allowed: nat
    var challenged: nat
    var blocked: nat
    var tarpit: nat
    var byIp: map<string, nat>
    var byPath: map<string, nat>
    var byCountry: map<string, nat>
    var byRule: map<string, nat>
    const ring: Ring

    ghost function TopTables(): Tables
      reads this
    {
      Tables(byIp, byPath, byCountry, byRule)
    }

    /** The totals and the chart are those of the log. */
    ghost predicate Represents(log: seq<Entry>)
      reads this, ring, ring.buckets
    {
      && ring.Represents(log)
      && allowed == Tally(log, Allow) && challenged == Tally(log, Challenge)
      && blocked == Tally(log, Block) && tarpit == Tally(log, Tarpit)
    }

    constructor ()
      ensures Represents([]) && fresh(ring) && fresh(ring.buckets)
      ensures TopTables() == Tables(map[], map[], map[], map[])
    {
      allowed, challenged, blocked, tarpit := 0, 0, 0, 0;
      byIp, byPath, byCountry, byRule := map[], map[], map[], map[];
      ring := new Ring();
      new;
      TallyNothing([], Allow);
      TallyNothing([], Challenge);
      TallyNothing([], Block);
      TallyNothing([], Tarpit);
    }

    method CountAction(action: Action, ghost log: seq<Entry>, ghost now: nat)
      requires allowed == Tally(log, Allow) && challenged == Tally(log, Challenge)
      requires blocked == Tally(log, Block) && tarpit == Tally(log, Tarpit)
      modifies this`allowed, this`challenged, this`blocked, this`tarpit
      ensures var log' := log + [Entry(now, action)];
        && allowed == Tally(log', Allow) && challenged == Tally(log', Challenge)
        && blocked == Tally(log', Block) && tarpit == Tally(log', Tarpit)
    {
      match action {
        case Allow => allowed := allowed + 1;
        case Challenge => challenged := challenged + 1;
        case Block => blocked := blocked + 1;
        case Tarpit => tarpit := tarpit + 1;
      }
      TallySnoc(log, Entry(now, action), Allow);
      TallySnoc(log, Entry(now, action), Challenge);
      TallySnoc(log, Entry(now, action), Block);
      TallySnoc(log, Entry(now, action), Tarpit);
    }

    method CountSubject(x: Subject, scans: Scans)
      requires Scannable(TopTables(), scans)
      modifies this`byIp, this`byPath, this`byCountry, this`byRule
      ensures TopTables() == TablesAfter(old(TopTables()), x, scans)
    {
      byIp := TopTable.Bump(byIp, x.ip, scans.ip);
      byPath := TopTable.Bump(byPath, x.path, scans.path);
      if x.country.Some? { byCountry := TopTable.Bump(byCountry, x.country.value, scans.country); }
      if x.rule.Some? { byRule := TopTable.Bump(byRule, x.rule.value, scans.rule); }
    }

    method Record(action: Action, x: Subject, scans: Scans, now: nat, ghost log: seq<Entry>)
      requires Represents(log) && 0 < now && ring.headSecs <= now && InSecond(log, now, BandOf(action)) < U32_MAX
      requires Scannable(TopTables(), scans)
      modifies this, ring, ring.buckets
      ensures Represents(log + [Entry(now, action)]) && ring.headSecs == now
      ensures TopTables() == TablesAfter(old(TopTables()), x, scans)
    {
      CountAction(action, log, now);
      CountSubject(x, scans);
      ring.Record(now, action, log);
    }
  }
}
