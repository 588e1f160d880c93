/** Two repetition signals: the same request over and over from one address, and one User-Agent
    shared by many addresses. Hashes are compared as numbers. */
module Signature {
  import opened Decision
  import opened Net
  import opened Words
  import Sweep
  import Window

  // ---- One address repeating one request ----

  const REPLAY_WINDOW: nat := 30
  const REPLAY_THRESHOLD: nat := 25

  datatype ReplayState = ReplayState(lastHash: nat, count: nat, firstSecs: nat)

  const NO_REPLAY := ReplayState(0, 0, 0)

  predicate ReplayOver(s: ReplayState, t: nat) {
    SatSub(t, s.firstSecs) > REPLAY_WINDOW
  }

  function ReplayStep(s: ReplayState, h: nat, t: nat): ReplayState {
    if s.lastHash != h || ReplayOver(s, t) then ReplayState(h, 1, t) else s.(count := SatAdd32(s.count, 1))
  }

  predicate ReplayVerdict(s: ReplayState, h: nat, t: nat) {
    s.lastHash == h && !ReplayOver(s, t) && SatAdd32(s.count, 1) >= REPLAY_THRESHOLD
  }

  predicate ReplayDrops(s: ReplayState, t: nat) {
    SatSub(t, s.firstSecs) >= REPLAY_WINDOW * 2
  }

  /** A fresh entry counts as expired from second 31 of the clock on, where the machine starts. */
  function ReplayMachine(): Sweep.Tracker<ReplayState, nat, bool> {
    Sweep.Tracker(REPLAY_WINDOW + 1, NO_REPLAY, (s, h, t) => ReplayStep(s, h, t), (s, h, t) => ReplayVerdict(s, h, t),
                  (s, t) => ReplayDrops(s, t),
                  (s, s', t) => s == s' || (ReplayOver(s, t) && ReplayOver(s', t)))
  }

  lemma ReplayForgets(s: ReplayState, s': ReplayState, h: nat, t: nat)
    requires ReplayOver(s, t) && ReplayOver(s', t)
    ensures ReplayStep(s, h, t) == ReplayStep(s', h, t)
    ensures ReplayVerdict(s, h, t) == ReplayVerdict(s', h, t)
  {
  }

  lemma ReplayMachineIsSound()
    ensures Sweep.Sound(ReplayMachine())
  {
    var m := ReplayMachine();
    forall s, s', h, t | ReplayOver(s, t) && ReplayOver(s', t)
      ensures m.verdict(s, h, t) == m.verdict(s', h, t) && m.step(s, h, t) == m.step(s', h, t)
    {
      ReplayForgets(s, s', h, t);
    }
    Sweep.ResetIsSound(m, (s, t: nat) => ReplayOver(s, t));
  }

  lemma ReplaySweepsAreInvisible(run: seq<Sweep.Event<IpAddr, nat>>)
    requires Sweep.InOrder(run, REPLAY_WINDOW + 1)
    ensures Sweep.Verdicts(ReplayMachine(), map[], run) == Sweep.Verdicts(ReplayMachine(), map[], Sweep.Uses(run))
  {
    ReplayMachineIsSound();
    Sweep.SweepsAreInvisible(ReplayMachine(), run);
  }

  datatype Seen = Seen(hash: nat, t: nat)

  predicate Ordered(obs: seq<Seen>) {
    forall i, j | 0 <= i < j < |obs| :: obs[i].t <= obs[j].t
  }

  function ReplayAfter(s: ReplayState, obs: seq<Seen>, n: nat): ReplayState
    requires n <= |obs|
  {
    if n == 0 then s else ReplayStep(ReplayAfter(s, obs, n - 1), obs[n - 1].hash, obs[n - 1].t)
  }

  /** The last c observations are the same request, and fit in one window. */
  predicate SameTail(obs: seq<Seen>, n: nat, c: nat)
    requires c <= n <= |obs|
  {
    forall i | n - c <= i < n :: obs[i].hash == obs[n - 1].hash && obs[i].t <= obs[n - c].t + REPLAY_WINDOW
  }

  /** The count is at most that of the identical requests in a row, all within the window; it falls
      behind only once it has reached all that 32 bits can hold. */
  lemma {:induction false} ReplayCounts(obs: seq<Seen>, n: nat)
    requires Ordered(obs) && 0 < n <= |obs| && obs[0].t > REPLAY_WINDOW
    ensures var s := ReplayAfter(NO_REPLAY, obs, n);
      && 1 <= s.count <= n && s.lastHash == obs[n - 1].hash && SameTail(obs, n, s.count)
      && (forall i | n - s.count <= i < n :: s.firstSecs <= obs[i].t <= s.firstSecs + REPLAY_WINDOW)
  {
    if n == 1 {
      assert ReplayAfter(NO_REPLAY, obs, 0) == NO_REPLAY;
    } else {
      ReplayCounts(obs, n - 1);
    }
  }

  /** No false alarm: a request is reported only when it and the 24 before it from its address were
      the same and came within 30 seconds. */
  lemma ReplayIsEarned(obs: seq<Seen>, n: nat)
    requires Ordered(obs) && n < |obs| && obs[0].t > REPLAY_WINDOW
    requires ReplayVerdict(ReplayAfter(NO_REPLAY, obs, n), obs[n].hash, obs[n].t)
    ensures n >= 24 && SameTail(obs, n + 1, 25) && obs[n].t <= obs[n - 24].t + 30
  {
    assert n > 0 by { assert ReplayAfter(NO_REPLAY, obs, 0) == NO_REPLAY; }
    ReplayCounts(obs, n);
    ReplayCounts(obs, n + 1);
  }

  /** In a row of identical requests no longer than one window: a were counted in the window open at
      its start, b in the one opened since. */
  predicate Tally(s: ReplayState, h: nat, t0: nat, a: nat, b: nat) {
    && (a > 0 ==> a + 1 < REPLAY_THRESHOLD) && b < REPLAY_THRESHOLD
    && (s.count >= 1 || ReplayOver(s, t0))
    && (b == 0 ==> a == 0 || a < s.count)
    && (b > 0 ==> s.lastHash == h && s.firstSecs >= t0 && b <= s.count)
  }

  lemma TallyStep(s: ReplayState, h: nat, t: nat, t0: nat, a: nat, b: nat) returns (a': nat, b': nat)
    requires Tally(s, h, t0, a, b) && t0 <= t <= t0 + REPLAY_WINDOW && !ReplayVerdict(s, h, t)
    ensures Tally(ReplayStep(s, h, t), h, t0, a', b') && a' + b' == a + b + 1
  {
    a', b' := a, b;
    if b == 0 && s.lastHash == h && !ReplayOver(s, t) { a' := a + 1; } else { b' := b + 1; }
  }

  lemma {:induction false} TallyRun(s: ReplayState, obs: seq<Seen>, h: nat, t0: nat, n: nat) returns (a: nat, b: nat)
    requires n <= |obs| && (s.count >= 1 || ReplayOver(s, t0))
    requires forall i | 0 <= i < |obs| :: obs[i].hash == h && t0 <= obs[i].t <= t0 + REPLAY_WINDOW
    requires forall i | 0 <= i < n :: !ReplayVerdict(ReplayAfter(s, obs, i), h, obs[i].t)
    ensures Tally(ReplayAfter(s, obs, n), h, t0, a, b) && a + b == n
  {
    if n == 0 {
      a, b := 0, 0;
    } else {
      var (before, t) := (ReplayAfter(s, obs, n - 1), obs[n - 1].t);
      a, b := TallyRun(s, obs, h, t0, n - 1);
      assert !ReplayVerdict(before, h, t) && ReplayAfter(s, obs, n) == ReplayStep(before, h, t);
      a, b := TallyStep(before, h, t, t0, a, b);
    }
  }

  /** No missed flood: of 48 identical requests in a row within 30 seconds at least one is reported,
      whatever the address did before. */
  lemma ReplayIsCaught(s: ReplayState, obs: seq<Seen>, h: nat, t0: nat)
    requires |obs| >= 48 && (s.count >= 1 || ReplayOver(s, t0))
    requires forall i | 0 <= i < |obs| :: obs[i].hash == h && t0 <= obs[i].t <= t0 + 30
    ensures exists i :: 0 <= i < |obs| && ReplayVerdict(ReplayAfter(s, obs, i), h, obs[i].t)
  {
    if forall i | 0 <= i < |obs| :: !ReplayVerdict(ReplayAfter(s, obs, i), h, obs[i].t) {
      var a, b := TallyRun(s, obs, h, t0, |obs|);
    }
  }

  /** As many as go unreported at the end of one window, and as many again at the start of the next. */
  function TwoRows(h: nat): seq<Seen> {
    seq(47, i => Seen(h, if i < 23 then 101 else 131))
  }

  lemma {:induction false} RowsFit(h: nat, n: nat)
    requires n <= 47
    ensures ReplayAfter(ReplayState(h, 1, 100), TwoRows(h), n)
         == if n <= 23 then ReplayState(h, 1 + n, 100) else ReplayState(h, n - 23, 131)
  {
    if n > 0 { RowsFit(h, n - 1); }
  }

  /** Forty-seven are not enough, after one more just before them. */
  lemma FortySevenUnreported(h: nat, i: nat)
    requires i < 47
    ensures 101 <= TwoRows(h)[i].t <= 101 + 30
    ensures !ReplayVerdict(ReplayAfter(ReplayState(h, 1, 100), TwoRows(h), i), h, TwoRows(h)[i].t)
  {
    RowsFit(h, i);
  }

  datatype ReplayTable = ReplayTable(byIp: map<IpAddr, ReplayState>, lastGc: nat)

  /** The table once the sweep that may be due is done. */
  function ReplaySwept(t: ReplayTable, now: nat): ReplayTable {
    if SatSub(now, t.lastGc) < 30 then t else ReplayTable(Sweep.Swept(ReplayMachine(), t.byIp, now), now)
  }

  /** One step of the sweeping machine: the new table and what the caller learns. */
  function ReplayObserved(t: ReplayTable, ip: IpAddr, h: nat, now: nat): (ReplayTable, Option<Reason>) {
    var (m, s) := (ReplayMachine(), ReplaySwept(t, now));
    (s.(byIp := Sweep.Used(m, s.byIp, ip, h, now)),
     if m.verdict(Sweep.Get(s.byIp, ip, NO_REPLAY), h, now) then Some(Reason("REPLAY", 60)) else None)
  }

  /** What a report is, and what a sweep leaves: once half a minute has passed since the last one, the next
      request drops every entry whose row began a minute ago or longer. */
  lemma ReplayInNumbers(t: ReplayTable, ip: IpAddr, h: nat, now: nat)
    requires forall a | a in t.byIp :: t.byIp[a].firstSecs <= now
    ensures var (t', r) := ReplayObserved(t, ip, h, now);
            var due := now >= t.lastGc + 30;
      && (r.Some? ==> r.value == Reason("REPLAY", 60))
      && t'.lastGc == (if due then now else t.lastGc)
      && ip in t'.byIp
      && forall a | a != ip :: a in t'.byIp <==> a in t.byIp && (due ==> now < t.byIp[a].firstSecs + 60)
  {
  }

  /** No row is kept for a minute and a half after it began. */
  predicate ReplayBrief(t: ReplayTable, now: nat) {
    t.lastGc <= now && forall a | a in t.byIp :: t.lastGc < t.byIp[a].firstSecs + 60 && t.byIp[a].firstSecs <= now
  }

  lemma ReplayStaysBrief(t: ReplayTable, ip: IpAddr, h: nat, now: nat, before: nat)
    requires ReplayBrief(t, before) && before <= now
    ensures var t' := ReplayObserved(t, ip, h, now).0;
      ReplayBrief(t', now) && forall a | a in t'.byIp :: now < t'.byIp[a].firstSecs + 90
  {
  }

  /** What the running tracker reports over a run of requests. */
  function ReplayReports(t: ReplayTable, uses: seq<Sweep.Event<IpAddr, nat>>): seq<bool>
    requires forall i | 0 <= i < |uses| :: uses[i].Use?
    decreases |uses|
  {
    if uses == [] then []
    else
      var (t', r) := ReplayObserved(t, uses[0].k, uses[0].x, uses[0].t);
      [r.Some?] + ReplayReports(t', uses[1..])
  }

  lemma {:induction false} ReplayReportsAnswers(t: ReplayTable, uses: seq<Sweep.Event<IpAddr, nat>>,
                                                due: (nat, nat) -> bool)
    requires forall i | 0 <= i < |uses| :: uses[i].Use?
    requires forall now, last :: due(now, last) <==> SatSub(now, last) >= 30
    ensures ReplayReports(t, uses) == Sweep.Answers(ReplayMachine(), due, t.byIp, t.lastGc, uses)
    decreases |uses|
  {
    if uses != [] {
      ReplayReportsAnswers(ReplayObserved(t, uses[0].k, uses[0].x, uses[0].t).0, uses[1..], due);
    }
  }

  /** The running tracker, sweeping itself every half minute, reports over any run just what a tracker
      that never forgets an address would. */
  lemma ReplayRunsUnswept(uses: seq<Sweep.Event<IpAddr, nat>>)
    requires Sweep.InOrder(uses, REPLAY_WINDOW + 1) && forall i | 0 <= i < |uses| :: uses[i].Use?
    ensures ReplayReports(ReplayTable(map[], 0), uses) == Sweep.Verdicts(ReplayMachine(), map[], uses)
  {
    var due := (now: nat, last: nat) => SatSub(now, last) >= 30;
    ReplayMachineIsSound();
    ReplayReportsAnswers(ReplayTable(map[], 0), uses, due);
    Sweep.SelfSweeping(ReplayMachine(), due, 0, uses);
  }

  class RequestReplay {
    var byIp: map<IpAddr, ReplayState>
    var lastGc: nat

    ghost function Snapshot(): ReplayTable
      reads this
    {
      ReplayTable(byIp, lastGc)
    }

    constructor ()
      ensures Snapshot() == ReplayTable(map[], 0)
    {
      byIp, lastGc := map[], 0;
    }

    method MaybeGc(now: nat)
      modifies this
      ensures Snapshot() == ReplaySwept(old(Snapshot()), now)
    {
      if SatSub(now, lastGc) < 30 { return; }
      lastGc := now;
      byIp := map ip | ip in byIp && SatSub(now, byIp[ip].firstSecs) < REPLAY_WINDOW * 2 :: byIp[ip];
    }

    method Observe(ip: IpAddr, h: nat, now: nat) returns (r: Option<Reason>)
      modifies this
      ensures (Snapshot(), r) == ReplayObserved(old(Snapshot()), ip, h, now)
    {
      MaybeGc(now);
      var s := if ip in byIp then byIp[ip] else NO_REPLAY;
      if s.lastHash != h || SatSub(now, s.firstSecs) > REPLAY_WINDOW {
        byIp := byIp[ip := ReplayState(h, 1, now)];
        return None;
      }
      s := s.(count := SatAdd32(s.count, 1));
      byIp := byIp[ip := s];
      r := if s.count >= REPLAY_THRESHOLD then Some(Reason("REPLAY", 60)) else None;
    }
  }

  // ---- One User-Agent shared by many addresses ----

  const UA_WINDOW: nat := 60
  const UA_THRESHOLD: nat := 8
  const UA_CAP: nat := 256

  datatype UaBucket = UaBucket(ips: set<IpAddr>, firstSecs: nat)

  const NO_BUCKET := UaBucket({}, 0)

  predicate BucketOver(b: UaBucket, t: nat) {
    b.firstSecs == 0 || SatSub(t, b.firstSecs) > UA_WINDOW
  }

  /** A bucket keeps at most `cap` addresses. */
  function UaStep(b: UaBucket, ip: IpAddr, t: nat, cap: Option<nat>): UaBucket {
    var b' := if BucketOver(b, t) then UaBucket({}, t) else b;
    if cap.None? || |b'.ips| < cap.value then b'.(ips := b'.ips + {ip}) else b'
  }

  predicate UaVerdict(b: UaBucket, ip: IpAddr, t: nat, cap: Option<nat>) {
    |UaStep(b, ip, t, cap).ips| >= UA_THRESHOLD
  }

  predicate UaDrops(b: UaBucket, t: nat) {
    SatSub(t, b.firstSecs) >= UA_WINDOW * 2
  }

  function UaMachine(): Sweep.Tracker<UaBucket, IpAddr, bool> {
    Sweep.Tracker(1, NO_BUCKET, (b, ip, t) => UaStep(b, ip, t, Some(UA_CAP)),
                  (b, ip, t) => UaVerdict(b, ip, t, Some(UA_CAP)), (b, t) => UaDrops(b, t),
                  (b, b', t) => b == b' || (BucketOver(b, t) && BucketOver(b', t)))
  }

  lemma BucketForgets(b: UaBucket, b': UaBucket, ip: IpAddr, t: nat)
    requires BucketOver(b, t) && BucketOver(b', t)
    ensures UaStep(b, ip, t, Some(UA_CAP)) == UaStep(b', ip, t, Some(UA_CAP))
  {
  }

  lemma UaMachineIsSound()
    ensures Sweep.Sound(UaMachine())
  {
    var m := UaMachine();
    forall b, b', ip, t | BucketOver(b, t) && BucketOver(b', t)
      ensures m.verdict(b, ip, t) == m.verdict(b', ip, t) && m.step(b, ip, t) == m.step(b', ip, t)
    {
      BucketForgets(b, b', ip, t);
    }
    Sweep.ResetIsSound(m, (b, t: nat) => BucketOver(b, t));
  }

  lemma UaSweepsAreInvisible(run: seq<Sweep.Event<nat, IpAddr>>)
    requires Sweep.InOrder(run, 1)
    ensures Sweep.Verdicts(UaMachine(), map[], run) == Sweep.Verdicts(UaMachine(), map[], Sweep.Uses(run))
  {
    UaMachineIsSound();
    Sweep.SweepsAreInvisible(UaMachine(), run);
  }

  datatype Visit = Visit(ip: IpAddr, t: nat)

  function BucketAfter(b: UaBucket, visits: seq<Visit>, n: nat, cap: Option<nat>): UaBucket
    requires n <= |visits|
  {
    if n == 0 then b else UaStep(BucketAfter(b, visits, n - 1, cap), visits[n - 1].ip, visits[n - 1].t, cap)
  }

  /** Is visit n reported? */
  predicate Reported(b: UaBucket, visits: seq<Visit>, n: nat, cap: Option<nat>)
    requires n < |visits|
  {
    UaVerdict(BucketAfter(b, visits, n, cap), visits[n].ip, visits[n].t, cap)
  }

  /** A bounded set next to the unbounded one it stands in for. */
  predicate Mirrors<T(==)>(bounded: set<T>, full: set<T>, cap: nat) {
    bounded <= full && |bounded| == Min(cap, |full|) && (|full| <= cap ==> bounded == full)
  }

  lemma MirrorsInsert<T>(bounded: set<T>, full: set<T>, cap: nat, x: T)
    requires Mirrors(bounded, full, cap)
    ensures Mirrors(if |bounded| < cap then bounded + {x} else bounded, full + {x}, cap)
  {
    if x in full { assert full + {x} == full; } else { assert |full + {x}| == |full| + 1; }
  }

  /** The cap of 256 addresses changes no verdict: with it or without it the bucket opened at the
      same time, and the capped one holds min(256, distinct addresses since). */
  lemma {:induction false} CapIsInvisible(visits: seq<Visit>, n: nat, cap: nat)
    requires n <= |visits|
    ensures var (b, full) := (BucketAfter(NO_BUCKET, visits, n, Some(cap)), BucketAfter(NO_BUCKET, visits, n, None));
      b.firstSecs == full.firstSecs && Mirrors(b.ips, full.ips, cap)
    ensures n < |visits| && cap >= UA_THRESHOLD ==>
      (Reported(NO_BUCKET, visits, n, Some(cap)) <==> Reported(NO_BUCKET, visits, n, None))
  {
    if n > 0 { CapIsInvisible(visits, n - 1, cap); StepMirrors(visits, n - 1, cap); }
    if n < |visits| { StepMirrors(visits, n, cap); }
  }

  lemma StepMirrors(visits: seq<Visit>, n: nat, cap: nat)
    requires n < |visits|
    requires var (b, full) := (BucketAfter(NO_BUCKET, visits, n, Some(cap)), BucketAfter(NO_BUCKET, visits, n, None));
      b.firstSecs == full.firstSecs && Mirrors(b.ips, full.ips, cap)
    ensures var (ip, t) := (visits[n].ip, visits[n].t);
            var b := UaStep(BucketAfter(NO_BUCKET, visits, n, Some(cap)), ip, t, Some(cap));
            var full := UaStep(BucketAfter(NO_BUCKET, visits, n, None), ip, t, None);
      b.firstSecs == full.firstSecs && Mirrors(b.ips, full.ips, cap)
  {
    var (ip, t) := (visits[n].ip, visits[n].t);
    var (b, full) := (BucketAfter(NO_BUCKET, visits, n, Some(cap)), BucketAfter(NO_BUCKET, visits, n, None));
    if BucketOver(b, t) { MirrorsInsert({}, {}, cap, ip); } else { MirrorsInsert(b.ips, full.ips, cap, ip); }
  }

  predicate VisitsInOrder(visits: seq<Visit>) {
    forall i, j | 0 <= i < j < |visits| :: visits[i].t <= visits[j].t
  }

  /** The addresses of the first n visits that came at `since` or later. */
  function Visitors(visits: seq<Visit>, n: nat, since: int): set<IpAddr>
    requires n <= |visits|
  {
    if n == 0 then {}
    else Visitors(visits, n - 1, since) + (if visits[n - 1].t >= since then {visits[n - 1].ip} else {})
  }

  lemma {:induction false} VisitorsGrow(visits: seq<Visit>, n: nat, since: int, since': int)
    requires n <= |visits| && since' <= since
    ensures Visitors(visits, n, since) <= Visitors(visits, n, since')
  {
    if n > 0 { VisitorsGrow(visits, n - 1, since, since'); }
  }

  /** A bucket holds only addresses that have visited since it was opened, less than a window ago. */
  lemma {:induction false} BucketIsRecent(visits: seq<Visit>, n: nat, cap: Option<nat>)
    requires VisitsInOrder(visits) && 0 < n <= |visits|
    ensures var b := BucketAfter(NO_BUCKET, visits, n, cap);
      b.ips <= Visitors(visits, n, b.firstSecs) && b.firstSecs <= visits[n - 1].t <= b.firstSecs + UA_WINDOW
  {
    if n == 1 {
      assert BucketAfter(NO_BUCKET, visits, 0, cap) == NO_BUCKET;
      assert Visitors(visits, 0, visits[0].t) == {};
    } else {
      BucketIsRecent(visits, n - 1, cap);
    }
  }

  /** No false alarm: a User-Agent is reported only when at least eight addresses have shown it in the
      last 60 seconds. */
  lemma UaIsEarned(visits: seq<Visit>, n: nat, cap: Option<nat>)
    requires VisitsInOrder(visits) && n < |visits| && Reported(NO_BUCKET, visits, n, cap)
    ensures |Visitors(visits, n + 1, visits[n].t - 60)| >= 8
  {
    var b := BucketAfter(NO_BUCKET, visits, n + 1, cap);
    BucketIsRecent(visits, n + 1, cap);
    VisitorsGrow(visits, n + 1, b.firstSecs, visits[n].t - UA_WINDOW);
    Window.SubsetSize(b.ips, Visitors(visits, n + 1, visits[n].t - UA_WINDOW));
  }

  /** In a stretch of unreported visits no longer than one window: all its addresses are in the bucket
      now open or among the `past` ones that the bucket closed in it had. */
  predicate Spread(b: UaBucket, shown: set<IpAddr>, past: set<IpAddr>, t0: nat) {
    && shown <= past + b.ips && |past| < UA_THRESHOLD
    && (shown != {} ==> |b.ips| < UA_THRESHOLD)
    && (past != {} ==> b.firstSecs >= t0)
  }

  lemma SpreadStep(b: UaBucket, ip: IpAddr, t: nat, cap: Option<nat>, shown: set<IpAddr>, past: set<IpAddr>, t0: nat)
      returns (past': set<IpAddr>)
    requires Spread(b, shown, past, t0) && 0 < t0 <= t <= t0 + UA_WINDOW
    requires (cap.Some? ==> cap.value >= UA_THRESHOLD) && !UaVerdict(b, ip, t, cap)
    ensures Spread(UaStep(b, ip, t, cap), shown + {ip}, past', t0)
  {
    past' := if BucketOver(b, t) then shown else past;
    if BucketOver(b, t) { Window.SubsetSize(shown, b.ips); }
  }

  lemma {:induction false} SpreadRun(b: UaBucket, visits: seq<Visit>, n: nat, cap: Option<nat>, t0: nat)
      returns (past: set<IpAddr>)
    requires n <= |visits| && 0 < t0 && (cap.Some? ==> cap.value >= UA_THRESHOLD)
    requires forall i | 0 <= i < |visits| :: t0 <= visits[i].t <= t0 + UA_WINDOW
    requires forall i | 0 <= i < n :: !Reported(b, visits, i, cap)
    ensures Spread(BucketAfter(b, visits, n, cap), Visitors(visits, n, t0), past, t0)
  {
    if n == 0 {
      past := {};
    } else {
      past := SpreadRun(b, visits, n - 1, cap, t0);
      assert !Reported(b, visits, n - 1, cap);
      past := SpreadStep(BucketAfter(b, visits, n - 1, cap), visits[n - 1].ip, visits[n - 1].t, cap,
                        Visitors(visits, n - 1, t0), past, t0);
    }
  }

  /** No missed crowd: of visits from 15 addresses within 60 seconds at least one is reported, whatever
      the bucket held before. */
  lemma UaIsCaught(b: UaBucket, visits: seq<Visit>, cap: Option<nat>, t0: nat)
    requires 0 < t0 && (cap.Some? ==> cap.value >= 8)
    requires forall i | 0 <= i < |visits| :: t0 <= visits[i].t <= t0 + 60
    requires |Visitors(visits, |visits|, t0)| >= 15
    ensures exists i :: 0 <= i < |visits| && Reported(b, visits, i, cap)
  {
    if forall i | 0 <= i < |visits| :: !Reported(b, visits, i, cap) {
      var past := SpreadRun(b, visits, |visits|, cap, t0);
      var ips := BucketAfter(b, visits, |visits|, cap).ips;
      Window.SubsetSize(Visitors(visits, |visits|, t0), past + ips);
    }
  }

  predicate Distinct(ips: seq<IpAddr>) {
    forall i, j | 0 <= i < j < |ips| :: ips[i] != ips[j]
  }

  /** Half of the addresses at the end of a bucket that the first of them opened, half at the start of
      the next. */
  function TwoCrowds(ips: seq<IpAddr>): seq<Visit> {
    seq(|ips|, i requires 0 <= i < |ips| => Visit(ips[i], if i < UA_THRESHOLD - 1 then 101 else 161))
  }

  lemma {:induction false} CrowdsFit(ips: seq<IpAddr>, n: nat, cap: Option<nat>)
    requires n <= |ips| == 2 * UA_THRESHOLD - 2
    ensures var b := BucketAfter(UaBucket({ips[0]}, 100), TwoCrowds(ips), n, cap);
      if n < UA_THRESHOLD then b.firstSecs == 100 && ips[0] in b.ips && |b.ips| <= Max(n, 1)
      else b.firstSecs == 161 && |b.ips| <= n - (UA_THRESHOLD - 1)
  {
    if n > 0 { CrowdsFit(ips, n - 1, cap); }
  }

  function Members(ips: seq<IpAddr>, n: nat): set<IpAddr>
    requires n <= |ips|
  {
    if n == 0 then {} else Members(ips, n - 1) + {ips[n - 1]}
  }

  lemma {:induction false} NotYet(ips: seq<IpAddr>, n: nat, k: nat)
    requires n <= k < |ips| && Distinct(ips)
    ensures ips[k] !in Members(ips, n)
  {
    if n > 0 { NotYet(ips, n - 1, k); }
  }

  lemma {:induction false} MembersSize(ips: seq<IpAddr>, n: nat)
    requires n <= |ips| && Distinct(ips)
    ensures |Members(ips, n)| == n
  {
    if n > 0 {
      MembersSize(ips, n - 1);
      NotYet(ips, n - 1, n - 1);
    }
  }

  lemma {:induction false} CrowdsShown(ips: seq<IpAddr>, n: nat)
    requires n <= |ips|
    ensures Visitors(TwoCrowds(ips), n, 101) == Members(ips, n)
  {
    if n > 0 { CrowdsShown(ips, n - 1); }
  }

  lemma CrowdsInWindow(ips: seq<IpAddr>, i: nat)
    requires i < |ips|
    ensures 101 <= TwoCrowds(ips)[i].t <= 101 + UA_WINDOW
  {
  }

  lemma CrowdUnreported(ips: seq<IpAddr>, i: nat, cap: Option<nat>)
    requires i < |ips| == 2 * UA_THRESHOLD - 2
    ensures !Reported(UaBucket({ips[0]}, 100), TwoCrowds(ips), i, cap)
  {
    CrowdsFit(ips, i + 1, cap);
  }

  /** Fourteen are not enough. */
  lemma FourteenUnreported(ips: seq<IpAddr>, cap: Option<nat>)
    requires |ips| == 14 && Distinct(ips)
    ensures var visits := TwoCrowds(ips);
      && (forall i | 0 <= i < |visits| :: 101 <= visits[i].t <= 101 + 60)
      && |Visitors(visits, |visits|, 101)| == 14
      && forall i | 0 <= i < |visits| :: !Reported(UaBucket({ips[0]}, 100), visits, i, cap)
  {
    CrowdsShown(ips, |ips|);
    MembersSize(ips, |ips|);
    forall i | 0 <= i < |ips|
      ensures 101 <= TwoCrowds(ips)[i].t <= 101 + UA_WINDOW
      ensures !Reported(UaBucket({ips[0]}, 100), TwoCrowds(ips), i, cap)
    {
      CrowdsInWindow(ips, i);
      CrowdUnreported(ips, i, cap);
    }
  }

  datatype UaTable = UaTable(byUa: map<nat, UaBucket>, lastGc: nat)

  function UaSwept(t: UaTable, now: nat): UaTable {
    if SatSub(now, t.lastGc) < 60 then t else UaTable(Sweep.Swept(UaMachine(), t.byUa, now), now)
  }

  /** One step of the sweeping machine; an empty User-Agent is not tracked. */
  function UaObserved(t: UaTable, ip: IpAddr, ua: Option<nat>, now: nat): (UaTable, Option<Reason>) {
    if ua.None? then (t, None)
    else
      var (m, s) := (UaMachine(), UaSwept(t, now));
      (s.(byUa := Sweep.Used(m, s.byUa, ua.value, ip, now)),
       if m.verdict(Sweep.Get(s.byUa, ua.value, NO_BUCKET), ip, now) then Some(Reason("DIST-UA", 50)) else None)
  }

  /** What a report is, and what a sweep leaves: once a minute has passed since the last one, the next visit
      drops every bucket opened two minutes ago or longer. Without a User-Agent nothing happens. */
  lemma UaInNumbers(t: UaTable, ip: IpAddr, ua: Option<nat>, now: nat)
    requires forall h | h in t.byUa :: t.byUa[h].firstSecs <= now
    ensures var (t', r) := UaObserved(t, ip, ua, now);
            var due := now >= t.lastGc + 60;
      && (ua.None? ==> t' == t && r.None?)
      && (r.Some? ==> r.value == Reason("DIST-UA", 50))
      && (ua.Some? ==>
            && t'.lastGc == (if due then now else t.lastGc)
            && ua.value in t'.byUa
            && forall h | h != ua.value :: h in t'.byUa <==> h in t.byUa && (due ==> now < t.byUa[h].firstSecs + 120))
  {
  }

  predicate UaBrief(t: UaTable, now: nat) {
    t.lastGc <= now && forall h | h in t.byUa :: t.lastGc < t.byUa[h].firstSecs + 120 && t.byUa[h].firstSecs <= now
  }

  /** No bucket is kept for three minutes after it was opened. */
  lemma UaStaysBrief(t: UaTable, ip: IpAddr, ua: nat, now: nat, before: nat)
    requires UaBrief(t, before) && before <= now
    ensures var t' := UaObserved(t, ip, Some(ua), now).0;
      UaBrief(t', now) && forall h | h in t'.byUa :: now < t'.byUa[h].firstSecs + 180
  {
  }

  /** A bucket keeps all its addresses up to 256. */
  lemma BucketFull(visits: seq<Visit>, n: nat)
    requires n <= |visits|
    ensures |BucketAfter(NO_BUCKET, visits, n, Some(UA_CAP)).ips|
         == Min(256, |BucketAfter(NO_BUCKET, visits, n, None).ips|)
  {
    CapIsInvisible(visits, n, UA_CAP);
  }

  /** What the running tracker reports over a run of visits with a User-Agent. */
  function UaReports(t: UaTable, uses: seq<Sweep.Event<nat, IpAddr>>): seq<bool>
    requires forall i | 0 <= i < |uses| :: uses[i].Use?
    decreases |uses|
  {
    if uses == [] then []
    else
      var (t', r) := UaObserved(t, uses[0].x, Some(uses[0].k), uses[0].t);
      [r.Some?] + UaReports(t', uses[1..])
  }

  lemma {:induction false} UaReportsAnswers(t: UaTable, uses: seq<Sweep.Event<nat, IpAddr>>, due: (nat, nat) -> bool)
    requires forall i | 0 <= i < |uses| :: uses[i].Use?
    requires forall now, last :: due(now, last) <==> SatSub(now, last) >= 60
    ensures UaReports(t, uses) == Sweep.Answers(UaMachine(), due, t.byUa, t.lastGc, uses)
    decreases |uses|
  {
    if uses != [] {
      UaReportsAnswers(UaObserved(t, uses[0].x, Some(uses[0].k), uses[0].t).0, uses[1..], due);
    }
  }

  /** The running tracker, sweeping itself every minute, reports over any run just what a tracker that
      never forgets a User-Agent would. */
  lemma UaRunsUnswept(uses: seq<Sweep.Event<nat, IpAddr>>)
    requires Sweep.InOrder(uses, 1) && forall i | 0 <= i < |uses| :: uses[i].Use?
    ensures UaReports(UaTable(map[], 0), uses) == Sweep.Verdicts(UaMachine(), map[], uses)
  {
    var due := (now: nat, last: nat) => SatSub(now, last) >= 60;
    UaMachineIsSound();
    UaReportsAnswers(UaTable(map[], 0), uses, due);
    Sweep.SelfSweeping(UaMachine(), due, 0, uses);
  }

  class DistributedUa {
    var byUa: map<nat, UaBucket>
    var lastGc: nat

    ghost function Snapshot(): UaTable
      reads this
    {
      UaTable(byUa, lastGc)
    }

    constructor ()
      ensures Snapshot() == UaTable(map[], 0)
    {
      byUa, lastGc := map[], 0;
    }

    method MaybeGc(now: nat)
      modifies this
      ensures Snapshot() == UaSwept(old(Snapshot()), now)
    {
      if SatSub(now, lastGc) < 60 { return; }
      lastGc := now;
      byUa := map h | h in byUa && SatSub(now, byUa[h].firstSecs) < UA_WINDOW * 2 :: byUa[h];
    }

    /** `ua` is the hash of the User-Agent, absent when the header is empty. */
    method Observe(ip: IpAddr, ua: Option<nat>, now: nat) returns (r: Option<Reason>)
      modifies this
      ensures (Snapshot(), r) == UaObserved(old(Snapshot()), ip, ua, now)
    {
      if ua.None? { return None; }
      MaybeGc(now);
      var h := ua.value;
      var b := if h in byUa then byUa[h] else NO_BUCKET;
      if b.firstSecs == 0 || SatSub(now, b.firstSecs) > UA_WINDOW { b := UaBucket({}, now); }
      if |b.ips| < UA_CAP { b := b.(ips := b.ips + {ip}); }
      byUa := byUa[h := b];
      r := if |b.ips| >= UA_THRESHOLD then Some(Reason("DIST-UA", 50)) else None;
    }
  }
}
