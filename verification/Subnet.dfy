/** Rate and concurrency of whole subnets: every /24 or /64 shares one hit counter and one
    in-flight count, however many addresses the requests come from. */
module Subnet {
  import opened Connections
  import opened Decision
  import opened Net
  import opened Window
  import opened Words

  const GC_SECS: nat := 60

  type History = map<nat, seq<nat>>

  datatype Caps = Caps(rpm: nat, conn: nat)

  /** The reasons for a subnet with `count` recent hits and `held` requests in flight. */
  function Reasons(caps: Caps, count: nat, held: int): seq<Reason> {
    (if caps.rpm > 0 && count > caps.rpm then [Reason("SUBNET-RPM", 80)] else [])
    + (if caps.conn > 0 && held > caps.conn then [Reason("SUBNET-CONN", 70)] else [])
  }

  // ---- What the count means ----

  datatype Hit = Hit(ip: IpAddr, t: nat)

  /** The table's history after a run of requests. */
  function HistoryOf(run: seq<Hit>): History {
    if run == [] then map[]
    else var last := run[|run| - 1]; Logged(HistoryOf(run[..|run| - 1]), SubnetKey(last.ip), last.t)
  }

  /** The requests of ip's subnet in the slots lo..hi. */
  ghost function Neighbours(run: seq<Hit>, ip: IpAddr, lo: int, hi: int): nat {
    |set i | 0 <= i < |run| && SameSubnet(run[i].ip, ip) && lo <= Slot(run[i].t) <= hi|
  }

  lemma NeighboursSnoc(run: seq<Hit>, h: Hit, ip: IpAddr, lo: int, hi: int)
    ensures Neighbours(run + [h], ip, lo, hi)
         == Neighbours(run, ip, lo, hi) + (if SameSubnet(h.ip, ip) && lo <= Slot(h.t) <= hi then 1 else 0)
  {
    var r := run + [h];
    var before := set i | 0 <= i < |run| && SameSubnet(run[i].ip, ip) && lo <= Slot(run[i].t) <= hi;
    var after := set i | 0 <= i < |r| && SameSubnet(r[i].ip, ip) && lo <= Slot(r[i].t) <= hi;
    assert after == if SameSubnet(h.ip, ip) && lo <= Slot(h.t) <= hi then before + {|run|} else before;
  }

  /** The counter of an address counts exactly the requests of its whole subnet, from any address
      of it and from none outside. */
  lemma {:induction false} CountsTheSubnet(run: seq<Hit>, ip: IpAddr, lo: int, hi: int)
    ensures HitsIn(Log(HistoryOf(run), SubnetKey(ip)), lo, hi) == Neighbours(run, ip, lo, hi)
  {
    if run == [] {
      NoHits([], lo, hi);
    } else {
      var n := |run| - 1;
      var before := HistoryOf(run[..n]);
      CountsTheSubnet(run[..n], ip, lo, hi);
      assert run == run[..n] + [run[n]];
      NeighboursSnoc(run[..n], run[n], ip, lo, hi);
      SubnetKeyPartition(run[n].ip, ip);
      HitsSnoc(Log(before, SubnetKey(ip)), run[n].t, lo, hi);
    }
  }

  // ---- The running tracker ----

  /** `hist` is every hit ever made; which counters a sweep has dropped is not part of the state. */
  datatype State = State(hist: History, held: map<nat, int>, lastGc: nat)

  /** One request: at most once a minute a sweep, then the hit, then the reasons. */
  ghost function Observed(s: State, ip: IpAddr, caps: Caps, now: nat): (State, seq<Reason>) {
    var key := SubnetKey(ip);
    var hist := Logged(s.hist, key, now);
    var due := SatSub(now, s.lastGc) >= GC_SECS;
    (State(hist, if due then Swept(s.held) else s.held, if due then now else s.lastGc),
     Reasons(caps, Recent(Log(hist, key), now), Count(s.held, key)))
  }

  /** What a request is told, in requests and holders of its subnet: SUBNET-RPM, 80 points, when a cap is set
      and the six slots up to now hold more requests of the subnet than that, this one included; SUBNET-CONN,
      70 points, when a cap is set and more of its requests are in flight. */
  lemma ReasonsInRequests(s: State, run: seq<Hit>, holders: multiset<nat>, ip: IpAddr, caps: Caps, now: nat)
    requires s.hist == HistoryOf(run) && Counts(s.held, holders)
    ensures var (s', out) := Observed(s, ip, caps, now);
            var all := run + [Hit(ip, now)];
      && s'.hist == HistoryOf(all) && Counts(s'.held, holders)
      && s'.lastGc == (if now >= s.lastGc + 60 then now else s.lastGc)
      && out == (if 0 < caps.rpm < Neighbours(all, ip, Slot(now) - 5, Slot(now)) then [Reason("SUBNET-RPM", 80)]
                 else [])
              + (if 0 < caps.conn < holders[SubnetKey(ip)] then [Reason("SUBNET-CONN", 70)] else [])
  {
    var all := run + [Hit(ip, now)];
    assert all[..|all| - 1] == run;
    CountsTheSubnet(all, ip, Slot(now) - 5, Slot(now));
    SweepCounts(s.held, holders);
    assert Count(s.held, SubnetKey(ip)) == holders[SubnetKey(ip)];
  }

  class SubnetTracker {
    const counters: CounterTable<nat>
    const inFlight: InFlight<nat>
    var lastGc: nat

    ghost predicate Valid()
      reads this, counters, counters.Repr
    {
      counters.Valid() && this !in counters.Repr && inFlight !in counters.Repr
    }

    ghost function Snapshot(): State
      reads this, counters, inFlight
    {
      State(counters.hist, inFlight.inner, lastGc)
    }

    constructor ()
      ensures Valid() && fresh(counters) && fresh(counters.Repr) && fresh(inFlight)
      ensures Snapshot() == State(map[], map[], 0) && counters.clock == 0
    {
      lastGc := 0;
      counters := new CounterTable();
      inFlight := new InFlight();
    }

    /** At most once a minute: drop the counters not hit for a minute and the counts of nobody. */
    method MaybeGc(now: nat)
      requires Valid() && counters.clock <= now
      modifies this, counters.Repr, inFlight
      ensures Valid() && fresh(counters.Repr - old(counters.Repr)) && counters.clock <= now
      ensures counters.hist == old(counters.hist)
      ensures if SatSub(now, old(lastGc)) >= GC_SECS then inFlight.inner == Swept(old(inFlight.inner)) && lastGc == now
              else inFlight.inner == old(inFlight.inner) && lastGc == old(lastGc)
    {
      if SatSub(now, lastGc) < GC_SECS { return; }
      lastGc := now;
      counters.GcIdle(now, GC_SECS);
      inFlight.Gc();
    }

    /** The sweep that may be due, and the hit. */
    method ObserveRate(key: nat, now: nat) returns (count: nat)
      requires Valid() && counters.clock <= now && Recent(Log(counters.hist, key), now) < U32_MAX
      modifies this, counters.Repr, inFlight
      ensures Valid() && fresh(counters.Repr - old(counters.Repr)) && counters.clock == now
      ensures counters.hist == Logged(old(counters.hist), key, now)
      ensures count == Recent(Log(counters.hist, key), now)
      ensures if SatSub(now, old(lastGc)) >= GC_SECS then inFlight.inner == Swept(old(inFlight.inner)) && lastGc == now
              else inFlight.inner == old(inFlight.inner) && lastGc == old(lastGc)
    {
      MaybeGc(now);
      count := counters.Bump(key, now);
    }

    /** A count that a sweep drops is not above any cap. */
    method ObserveConn(key: nat, caps: Caps, ghost before: map<nat, int>) returns (out: seq<Reason>)
      requires inFlight.inner == before || inFlight.inner == Swept(before)
      ensures out == if caps.conn > 0 && Count(before, key) > caps.conn then [Reason("SUBNET-CONN", 70)] else []
    {
      out := [];
      if caps.conn > 0 {
        var cur := inFlight.Current(key);
        if cur > caps.conn { out := [Reason("SUBNET-CONN", 70)]; }
      }
    }

    /** The answer depends on every hit ever made and on who is in flight, not on what the sweep
        before it dropped. */
    method Observe(ip: IpAddr, caps: Caps, now: nat) returns (out: seq<Reason>)
      requires Valid() && counters.clock <= now && Recent(Log(counters.hist, SubnetKey(ip)), now) < U32_MAX
      modifies this, counters.Repr, inFlight
      ensures Valid() && fresh(counters.Repr - old(counters.Repr)) && counters.clock == now
      ensures (Snapshot(), out) == Observed(old(Snapshot()), ip, caps, now)
    {
      var key := SubnetKey(ip);
      ghost var before := inFlight.inner;
      var count := ObserveRate(key, now);
      out := if caps.rpm > 0 && count > caps.rpm then [Reason("SUBNET-RPM", 80)] else [];
      var conn := ObserveConn(key, caps, before);
      out := out + conn;
    }

    method IncInflight(ip: IpAddr)
      modifies inFlight
      ensures inFlight.inner == Incremented(old(inFlight.inner), SubnetKey(ip))
    {
      var _ := inFlight.Inc(SubnetKey(ip));
    }

    method DecInflight(ip: IpAddr)
      modifies inFlight
      ensures inFlight.inner == Decremented(old(inFlight.inner), SubnetKey(ip))
    {
      inFlight.Dec(SubnetKey(ip));
    }
  }
}
