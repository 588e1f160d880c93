/** Per-address behaviour: how many distinct paths and User-Agents, which methods, how regular, over a session
    that ends when the address goes quiet. Memory is bounded and swept; neither changes a verdict. */
module Behavior {
  import opened Decision
  import opened Net
  import opened Words
  import Regularity
  import Sweep

  const WINDOW_SECS: nat := 60
  const PATHS_CAP: nat := 32
  const UA_CAP: nat := 4
  const INTERVAL_CAP: nat := 16

  const OPTIONS: nat := 5
  const HEAD: nat := 6

  type Method = m: nat | m < 8

  /** One request: its path and User-Agent hashed, the latter absent when the header is empty, and
      the milliseconds past the second it came in. */
  datatype Request = Request(path: nat, verb: Method, ua: Option<nat>, ms: nat)

  datatype State = State(firstSeen: nat, lastSeen: nat, requestCount: nat, paths: seq<nat>, intervals: seq<nat>,
                         methods: seq<nat>, uas: seq<nat>)

  const BLANK := State(0, 0, 0, [], [], [0, 0, 0, 0, 0, 0, 0, 0], [])

  predicate Idle(s: State, t: nat) {
    SatSub(t, s.lastSeen) > WINDOW_SECS
  }

  /** A bounded set kept as a list, which forgets its oldest member when full. */
  function Remembered(xs: seq<nat>, x: nat, cap: nat): seq<nat> {
    if x in xs then xs else Pushed(xs, x, cap)
  }

  /** A bounded queue. */
  function Pushed(xs: seq<nat>, x: nat, cap: nat): seq<nat> {
    (if |xs| > 0 && |xs| == cap then xs[1..] else xs) + [x]
  }

  function Counted(ms: seq<nat>, m: Method): seq<nat> {
    if |ms| == 8 then ms[m := SatAdd32(ms[m], 1)] else ms
  }

  /** The gap since the previous request in milliseconds, cut to 32 bits. */
  function Delta(s: State, r: Request, t: nat): nat {
    SatSub(t * 1000 + r.ms, s.lastSeen * 1000) % (U32_MAX + 1)
  }

  function Step(s0: State, r: Request, t: nat): State {
    var s := if Idle(s0, t) then BLANK else s0;
    State(
      if s.firstSeen == 0 then t else s.firstSeen,
      t,
      SatAdd32(s.requestCount, 1),
      Remembered(s.paths, r.path, PATHS_CAP),
      if s.lastSeen == 0 then s.intervals else Pushed(s.intervals, Delta(s, r, t), INTERVAL_CAP),
      Counted(s.methods, r.verb),
      if r.ua.Some? then Remembered(s.uas, r.ua.value, UA_CAP) else s.uas)
  }

  predicate LowDiversity(count: nat, paths: nat) {
    count >= 30 && paths < 3
  }

  predicate MethodBias(count: nat, optionsAndHead: nat) {
    count >= 25 && 10 * optionsAndHead >= 9 * count
  }

  predicate UaChurn(uas: nat) {
    uas >= 3
  }

  /** What the caller learns. */
  datatype Report = Report(lowDiversity: bool, regular: bool, methodBias: bool, uaChurn: bool)

  function ReportOf(s: State): Report {
    Report(LowDiversity(s.requestCount, |s.paths|),
           Regularity.IsRegular(s.intervals, s.requestCount),
           |s.methods| == 8 && MethodBias(s.requestCount, s.methods[OPTIONS] + s.methods[HEAD]),
           UaChurn(|s.uas|))
  }

  predicate Drops(s: State, t: nat) {
    SatSub(t, s.lastSeen) > WINDOW_SECS * 2
  }

  // ---- Sweeps ----

  /** A fresh entry counts as idle from second 61 of the clock on, where the machine starts. */
  function Machine(): Sweep.Tracker<State, Request, Report> {
    Sweep.Tracker(WINDOW_SECS + 1, BLANK, (s, r, t) => Step(s, r, t), (s, r, t) => ReportOf(Step(s, r, t)),
                  (s, t) => Drops(s, t), (s, s', t) => s == s' || (Idle(s, t) && Idle(s', t)))
  }

  lemma IdleForgets(s: State, s': State, r: Request, t: nat)
    requires Idle(s, t) && Idle(s', t)
    ensures Step(s, r, t) == Step(s', r, t)
  {
  }

  lemma MachineIsSound()
    ensures Sweep.Sound(Machine())
  {
    var m := Machine();
    forall s, s', r, t | Idle(s, t) && Idle(s', t)
      ensures m.verdict(s, r, t) == m.verdict(s', r, t) && m.step(s, r, t) == m.step(s', r, t)
    {
      IdleForgets(s, s', r, t);
    }
    Sweep.ResetIsSound(m, (s, t: nat) => Idle(s, t));
  }

  lemma SweepsAreInvisible(run: seq<Sweep.Event<IpAddr, Request>>)
    requires Sweep.InOrder(run, WINDOW_SECS + 1)
    ensures Sweep.Verdicts(Machine(), map[], run) == Sweep.Verdicts(Machine(), map[], Sweep.Uses(run))
  {
    MachineIsSound();
    Sweep.SweepsAreInvisible(Machine(), run);
  }

  // ---- Bounded memory against the whole session ----

  datatype Seen = Seen(r: Request, t: nat)

  predicate Ordered(obs: seq<Seen>) {
    forall i | 0 < i < |obs| :: obs[i - 1].t <= obs[i].t
  }

  function After(obs: seq<Seen>, n: nat): State
    requires n <= |obs|
  {
    if n == 0 then BLANK else Step(After(obs, n - 1), obs[n - 1].r, obs[n - 1].t)
  }

  /** Where the session of request n - 1 began: after the latest gap of more than a minute. */
  function Begin(obs: seq<Seen>, n: nat): (k: nat)
    requires n <= |obs|
    ensures k <= n && (n > 0 ==> k < n)
  {
    if n <= 1 then 0
    else if obs[n - 1].t - obs[n - 2].t > WINDOW_SECS then n - 1
    else Begin(obs, n - 1)
  }

  function PathsOf(obs: seq<Seen>, k: nat, n: nat): set<nat>
    requires n <= |obs|
  {
    if n <= k then {} else PathsOf(obs, k, n - 1) + {obs[n - 1].r.path}
  }

  function UasOf(obs: seq<Seen>, k: nat, n: nat): set<nat>
    requires n <= |obs|
  {
    if n <= k then {}
    else UasOf(obs, k, n - 1) + (if obs[n - 1].r.ua.Some? then {obs[n - 1].r.ua.value} else {})
  }

  function MethodsOf(obs: seq<Seen>, k: nat, n: nat, m: Method): nat
    requires n <= |obs|
  {
    if n <= k then 0 else MethodsOf(obs, k, n - 1, m) + (if obs[n - 1].r.verb == m then 1 else 0)
  }

  /** A bounded list next to the set of everything it was shown. */
  predicate Mirrors(xs: seq<nat>, full: set<nat>, cap: nat) {
    && (forall i, j | 0 <= i < j < |xs| :: xs[i] != xs[j])
    && (forall x | x in xs :: x in full)
    && |xs| == Min(cap, |full|)
    && (|full| <= cap ==> forall x | x in full :: x in xs)
  }

  lemma RememberedMirrors(xs: seq<nat>, full: set<nat>, cap: nat, x: nat)
    requires cap > 0 && Mirrors(xs, full, cap)
    ensures Mirrors(Remembered(xs, x, cap), full + {x}, cap)
  {
    if x in full {
      assert full + {x} == full;
    } else {
      assert |full + {x}| == |full| + 1;
    }
    if x !in xs && |xs| == cap {
      assert |full| >= cap;
      assert forall y | y in xs[1..] :: y in xs;
    }
  }

  ghost predicate Counters(ms: seq<nat>, obs: seq<Seen>, k: nat, n: nat)
    requires n <= |obs|
  {
    |ms| == 8 && forall m: Method :: ms[m] == MethodsOf(obs, k, n, m)
  }

  /** The state holds what the session so far comes to. */
  ghost predicate Holds(s: State, obs: seq<Seen>, k: nat, n: nat)
    requires n <= |obs|
  {
    && s.requestCount == n - k
    && Mirrors(s.paths, PathsOf(obs, k, n), PATHS_CAP) && Mirrors(s.uas, UasOf(obs, k, n), UA_CAP)
    && Counters(s.methods, obs, k, n)
  }

  lemma {:induction false} MethodsBounded(obs: seq<Seen>, k: nat, n: nat, m: Method)
    requires k <= n <= |obs|
    ensures MethodsOf(obs, k, n, m) <= n - k
  {
    if n > k { MethodsBounded(obs, k, n - 1, m); }
  }

  lemma CountersNext(ms: seq<nat>, obs: seq<Seen>, k: nat, n: nat)
    requires k <= n < |obs| && n - k < U32_MAX && Counters(ms, obs, k, n)
    ensures Counters(Counted(ms, obs[n].r.verb), obs, k, n + 1)
  {
    MethodsBounded(obs, k, n, obs[n].r.verb);
  }

  lemma PathsNext(xs: seq<nat>, obs: seq<Seen>, k: nat, n: nat)
    requires k <= n < |obs| && Mirrors(xs, PathsOf(obs, k, n), PATHS_CAP)
    ensures Mirrors(Remembered(xs, obs[n].r.path, PATHS_CAP), PathsOf(obs, k, n + 1), PATHS_CAP)
  {
    RememberedMirrors(xs, PathsOf(obs, k, n), PATHS_CAP, obs[n].r.path);
  }

  lemma UasNext(xs: seq<nat>, obs: seq<Seen>, k: nat, n: nat)
    requires k <= n < |obs| && Mirrors(xs, UasOf(obs, k, n), UA_CAP)
    ensures var ua := obs[n].r.ua;
      Mirrors(if ua.Some? then Remembered(xs, ua.value, UA_CAP) else xs, UasOf(obs, k, n + 1), UA_CAP)
  {
    if obs[n].r.ua.Some? {
      RememberedMirrors(xs, UasOf(obs, k, n), UA_CAP, obs[n].r.ua.value);
    } else {
      assert UasOf(obs, k, n + 1) == UasOf(obs, k, n);
    }
  }

  lemma HoldsNext(s: State, obs: seq<Seen>, k: nat, n: nat)
    requires k <= n < |obs| && n - k < U32_MAX && Holds(s, obs, k, n) && !Idle(s, obs[n].t)
    ensures Holds(Step(s, obs[n].r, obs[n].t), obs, k, n + 1)
  {
    PathsNext(s.paths, obs, k, n);
    UasNext(s.uas, obs, k, n);
    CountersNext(s.methods, obs, k, n);
  }

  /** An idle address starts over: its step is that of a state that holds an empty session. */
  lemma HoldsFirst(s: State, obs: seq<Seen>, n: nat)
    requires n < |obs| && Idle(s, obs[n].t)
    ensures Holds(Step(s, obs[n].r, obs[n].t), obs, n, n + 1)
  {
    PathsNext([], obs, n, n);
    UasNext([], obs, n, n);
    CountersNext(BLANK.methods, obs, n, n);
  }

  lemma LastSeen(obs: seq<Seen>, n: nat)
    requires 0 < n <= |obs|
    ensures After(obs, n).lastSeen == obs[n - 1].t
  {
  }

  /** The state holds the session so far, as long as 32 bits can count it. */
  lemma {:induction false} SessionHolds(obs: seq<Seen>, n: nat)
    requires Ordered(obs) && 0 < n <= |obs| && n - Begin(obs, n) <= U32_MAX && obs[0].t > WINDOW_SECS
    ensures Holds(After(obs, n), obs, Begin(obs, n), n)
  {
    var before := After(obs, n - 1);
    if n > 1 { LastSeen(obs, n - 1); }
    if n == 1 || Idle(before, obs[n - 1].t) {
      HoldsFirst(before, obs, n - 1);
    } else {
      SessionHolds(obs, n - 1);
      HoldsNext(before, obs, Begin(obs, n - 1), n - 1);
    }
  }

  /** The gap between two requests as the tracker takes it: from the full second of the first. */
  function Gap(a: Seen, b: Seen): nat {
    SatSub(b.t * 1000 + b.r.ms, a.t * 1000) % (U32_MAX + 1)
  }

  /** All gaps of the session from k to n. */
  function GapsOf(obs: seq<Seen>, k: nat, n: nat): seq<nat>
    requires n <= |obs|
  {
    if n <= k + 1 then [] else GapsOf(obs, k, n - 1) + [Gap(obs[n - 2], obs[n - 1])]
  }

  /** The last `cap` of a list. */
  function Latest(xs: seq<nat>, cap: nat): seq<nat> {
    if |xs| <= cap then xs else xs[|xs| - cap..]
  }

  lemma PushedLatest(xs: seq<nat>, x: nat, cap: nat)
    requires cap > 0
    ensures Pushed(Latest(xs, cap), x, cap) == Latest(xs + [x], cap)
  {
  }

  lemma {:induction false} NotBefore(obs: seq<Seen>, i: nat)
    requires Ordered(obs) && i < |obs|
    ensures obs[i].t >= obs[0].t
  {
    if i > 0 { NotBefore(obs, i - 1); }
  }

  lemma IntervalsStart(s: State, r: Request, t: nat)
    requires Idle(s, t)
    ensures Step(s, r, t).intervals == []
  {
  }

  lemma IntervalsGrow(s: State, a: Seen, b: Seen)
    requires !Idle(s, b.t) && s.lastSeen == a.t > 0
    ensures Step(s, b.r, b.t).intervals == Pushed(s.intervals, Gap(a, b), INTERVAL_CAP)
  {
  }

  lemma OneGapMore(s: State, obs: seq<Seen>, k: nat, n: nat)
    requires k < n < |obs| && !Idle(s, obs[n].t) && s.lastSeen == obs[n - 1].t > 0
    requires s.intervals == Latest(GapsOf(obs, k, n), INTERVAL_CAP)
    ensures Step(s, obs[n].r, obs[n].t).intervals == Latest(GapsOf(obs, k, n + 1), INTERVAL_CAP)
  {
    IntervalsGrow(s, obs[n - 1], obs[n]);
    PushedLatest(GapsOf(obs, k, n), Gap(obs[n - 1], obs[n]), INTERVAL_CAP);
  }

  /** The queue of intervals holds the last sixteen gaps of the session. */
  lemma {:induction false} IntervalsAreGaps(obs: seq<Seen>, n: nat)
    requires Ordered(obs) && 0 < n <= |obs| && obs[0].t > WINDOW_SECS
    ensures After(obs, n).intervals == Latest(GapsOf(obs, Begin(obs, n), n), INTERVAL_CAP)
  {
    var (s, last) := (After(obs, n - 1), obs[n - 1]);
    if n == 1 {
      IntervalsStart(s, last.r, last.t);
    } else {
      LastSeen(obs, n - 1);
      if Idle(s, last.t) {
        IntervalsStart(s, last.r, last.t);
      } else {
        NotBefore(obs, n - 2);
        IntervalsAreGaps(obs, n - 1);
        OneGapMore(s, obs, Begin(obs, n - 1), n - 1);
      }
    }
  }

  /** What unbounded memory of the session from k to n would report. */
  function FullReport(obs: seq<Seen>, k: nat, n: nat): Report
    requires k <= n <= |obs|
  {
    Report(LowDiversity(n - k, |PathsOf(obs, k, n)|),
           Regularity.IsRegular(Latest(GapsOf(obs, k, n), INTERVAL_CAP), n - k),
           MethodBias(n - k, MethodsOf(obs, k, n, OPTIONS) + MethodsOf(obs, k, n, HEAD)),
           UaChurn(|UasOf(obs, k, n)|))
  }

  lemma HeldReport(s: State, obs: seq<Seen>, k: nat, n: nat)
    requires k <= n <= |obs| && Holds(s, obs, k, n) && s.intervals == Latest(GapsOf(obs, k, n), INTERVAL_CAP)
    ensures ReportOf(s) == FullReport(obs, k, n)
  {
    assert s.methods[OPTIONS] == MethodsOf(obs, k, n, OPTIONS) && s.methods[HEAD] == MethodsOf(obs, k, n, HEAD);
  }

  /** With lists of 32 paths and 4 User-Agents and a queue of 16 intervals the tracker reports exactly
      what the whole session comes to: its distinct paths and User-Agents, its methods and its last
      sixteen gaps. */
  lemma BoundedMemoryIsInvisible(obs: seq<Seen>, n: nat)
    requires Ordered(obs) && 0 < n <= |obs| && n - Begin(obs, n) <= U32_MAX && obs[0].t > WINDOW_SECS
    ensures ReportOf(After(obs, n)) == FullReport(obs, Begin(obs, n), n)
  {
    SessionHolds(obs, n);
    IntervalsAreGaps(obs, n);
    HeldReport(After(obs, n), obs, Begin(obs, n), n);
  }

  function Sum8(ms: seq<nat>): nat
    requires |ms| == 8
  {
    ms[0] + ms[1] + ms[2] + ms[3] + ms[4] + ms[5] + ms[6] + ms[7]
  }

  lemma CountedSum(ms: seq<nat>, m: Method)
    requires |ms| == 8 && ms[m] < U32_MAX
    ensures |Counted(ms, m)| == 8 && Sum8(Counted(ms, m)) == Sum8(ms) + 1
  {
    if m == 0 {} else if m == 1 {} else if m == 2 {} else if m == 3 {} else if m == 4 {} else if m == 5 {}
    else if m == 6 {} else { assert m == 7; }
  }

  predicate AddsUp(ms: seq<nat>, count: nat) {
    |ms| == 8 && Sum8(ms) == count
  }

  /** A step that leaves the request count below its limit came from a state below it, or from a new
      session. */
  lemma StepAdds(s: State, r: Request, t: nat)
    requires Step(s, r, t).requestCount < U32_MAX
    requires s.requestCount < U32_MAX ==> AddsUp(s.methods, s.requestCount)
    ensures var s' := Step(s, r, t);
      AddsUp(s'.methods, s'.requestCount)
  {
    CountedSum(BLANK.methods, r.verb);
    if !Idle(s, t) { CountedSum(s.methods, r.verb); }
  }

  /** The method counters add up to the request count, until it has reached all that 32 bits can hold. */
  lemma {:induction false} MethodsAddUp(obs: seq<Seen>, n: nat)
    requires n <= |obs| && After(obs, n).requestCount < U32_MAX
    ensures AddsUp(After(obs, n).methods, After(obs, n).requestCount)
  {
    if n > 0 {
      var before := After(obs, n - 1);
      if before.requestCount < U32_MAX { MethodsAddUp(obs, n - 1); }
      StepAdds(before, obs[n - 1].r, obs[n - 1].t);
    }
  }

  /** Which cannot be before as many requests. */
  lemma {:induction false} CountAtMost(obs: seq<Seen>, n: nat)
    requires n <= |obs|
    ensures After(obs, n).requestCount <= n
  {
    if n > 0 { CountAtMost(obs, n - 1); }
  }

  function Reasons(r: Report): seq<Reason> {
    (if r.lowDiversity then [Reason("BHV-LOWDIV", 30)] else [])
    + (if r.regular then [Reason("BHV-REGULAR", 35)] else [])
    + (if r.methodBias then [Reason("BHV-METHOD-BIAS", 25)] else [])
    + (if r.uaChurn then [Reason("BHV-UA-CHURN", 30)] else [])
  }

  function Given(yes: bool, r: Reason): seq<Reason> {
    if yes then [r] else []
  }

  /** What a request is told, in the session it belongs to: fewer than three paths in thirty requests or more;
      sixteen latest gaps that are regular; nine in ten of at least twenty-five requests OPTIONS or HEAD; three
      User-Agents. */
  lemma ReasonsInSession(obs: seq<Seen>, n: nat)
    requires Ordered(obs) && 0 < n <= |obs| && n - Begin(obs, n) <= U32_MAX && obs[0].t > WINDOW_SECS
    ensures var k := Begin(obs, n);
      Reasons(ReportOf(After(obs, n)))
      == Given(n - k >= 30 && |PathsOf(obs, k, n)| < 3, Reason("BHV-LOWDIV", 30))
       + Given(Regularity.IsRegular(Latest(GapsOf(obs, k, n), 16), n - k), Reason("BHV-REGULAR", 35))
       + Given(n - k >= 25 && 10 * (MethodsOf(obs, k, n, 5) + MethodsOf(obs, k, n, 6)) >= 9 * (n - k),
               Reason("BHV-METHOD-BIAS", 25))
       + Given(|UasOf(obs, k, n)| >= 3, Reason("BHV-UA-CHURN", 30))
  {
    BoundedMemoryIsInvisible(obs, n);
  }

  /** What is remembered of a session: its paths up to 32, its User-Agents up to four, its gaps up to sixteen. */
  lemma MemoryInNumbers(obs: seq<Seen>, n: nat)
    requires Ordered(obs) && 0 < n <= |obs| && n - Begin(obs, n) <= U32_MAX && obs[0].t > WINDOW_SECS
    ensures var (s, k) := (After(obs, n), Begin(obs, n));
      && |s.paths| == Min(32, |PathsOf(obs, k, n)|) && |s.uas| == Min(4, |UasOf(obs, k, n)|)
      && |s.intervals| == Min(16, |GapsOf(obs, k, n)|) && s.requestCount == n - k
  {
    SessionHolds(obs, n);
    IntervalsAreGaps(obs, n);
  }

  /** The address is on record with the first and the latest second of its session. */
  lemma {:induction false} SessionDated(obs: seq<Seen>, n: nat)
    requires Ordered(obs) && 0 < n <= |obs| && obs[0].t > WINDOW_SECS
    ensures After(obs, n).firstSeen == obs[Begin(obs, n)].t && After(obs, n).lastSeen == obs[n - 1].t
  {
    if n > 1 {
      SessionDated(obs, n - 1);
      NotBefore(obs, Begin(obs, n - 1));
    }
  }

  /** A session ends with a gap of more than sixty seconds, and with nothing else. */
  lemma SessionsExactly(obs: seq<Seen>, n: nat)
    requires Ordered(obs) && 1 < n <= |obs|
    ensures Begin(obs, n) == if obs[n - 1].t > obs[n - 2].t + 60 then n - 1 else Begin(obs, n - 1)
  {
  }

  // ---- The running tracker ----

  datatype Table = Table(byIp: map<IpAddr, State>, lastGc: nat)

  function TableSwept(t: Table, now: nat): Table {
    if SatSub(now, t.lastGc) > 30 then Table(Sweep.Swept(Machine(), t.byIp, now), now) else t
  }

  /** One step of the sweeping machine: the new table and what the caller learns. */
  function Observed(t: Table, ip: IpAddr, r: Request, now: nat): (Table, seq<Reason>) {
    var (m, s) := (Machine(), TableSwept(t, now));
    (s.(byIp := Sweep.Used(m, s.byIp, ip, r, now)), Reasons(m.verdict(Sweep.Get(s.byIp, ip, BLANK), r, now)))
  }

  /** What a sweep leaves: once more than half a minute has passed since the last one, the next request drops
      every address that has been quiet for more than two minutes. */
  lemma SweepsInNumbers(t: Table, ip: IpAddr, r: Request, now: nat)
    requires forall a | a in t.byIp :: t.byIp[a].lastSeen <= now
    ensures var t' := Observed(t, ip, r, now).0;
            var due := now > t.lastGc + 30;
      && t'.lastGc == (if due then now else t.lastGc)
      && ip in t'.byIp
      && forall a | a != ip :: a in t'.byIp <==> a in t.byIp && (due ==> now <= t.byIp[a].lastSeen + 120)
  {
  }

  predicate Brief(t: Table, now: nat) {
    t.lastGc <= now && forall a | a in t.byIp :: t.lastGc <= t.byIp[a].lastSeen + 120 && t.byIp[a].lastSeen <= now
  }

  /** No address is kept that has been quiet for more than two minutes and a half. */
  lemma StaysBrief(t: Table, ip: IpAddr, r: Request, now: nat, before: nat)
    requires Brief(t, before) && before <= now
    ensures var t' := Observed(t, ip, r, now).0;
      Brief(t', now) && forall a | a in t'.byIp :: now <= t'.byIp[a].lastSeen + 150
  {
  }

  /** What the running tracker reports over a run of requests. */
  function Reports(t: Table, uses: seq<Sweep.Event<IpAddr, Request>>): seq<seq<Reason>>
    requires forall i | 0 <= i < |uses| :: uses[i].Use?
    decreases |uses|
  {
    if uses == [] then []
    else
      var (t', out) := Observed(t, uses[0].k, uses[0].x, uses[0].t);
      [out] + Reports(t', uses[1..])
  }

  function AllReasons(rs: seq<Report>): seq<seq<Reason>> {
    if rs == [] then [] else [Reasons(rs[0])] + AllReasons(rs[1..])
  }

  lemma {:induction false} ReportsAnswers(t: Table, uses: seq<Sweep.Event<IpAddr, Request>>, due: (nat, nat) -> bool)
    requires forall i | 0 <= i < |uses| :: uses[i].Use?
    requires forall now, last :: due(now, last) <==> SatSub(now, last) > 30
    ensures Reports(t, uses) == AllReasons(Sweep.Answers(Machine(), due, t.byIp, t.lastGc, uses))
    decreases |uses|
  {
    if uses != [] {
      ReportsAnswers(Observed(t, uses[0].k, uses[0].x, uses[0].t).0, uses[1..], due);
    }
  }

  /** The running tracker, sweeping itself every half minute, gives over any run just the reasons a
      tracker that never forgets an address would. */
  lemma RunsUnswept(uses: seq<Sweep.Event<IpAddr, Request>>)
    requires Sweep.InOrder(uses, WINDOW_SECS + 1) && forall i | 0 <= i < |uses| :: uses[i].Use?
    ensures Reports(Table(map[], 0), uses) == AllReasons(Sweep.Verdicts(Machine(), map[], uses))
  {
    var due := (now: nat, last: nat) => SatSub(now, last) > 30;
    MachineIsSound();
    ReportsAnswers(Table(map[], 0), uses, due);
    Sweep.SelfSweeping(Machine(), due, 0, uses);
  }

  class BehaviorTracker {
    var byIp: map<IpAddr, State>
    var lastGc: nat

    ghost predicate Valid()
      reads this
    {
      forall k | k in byIp :: |byIp[k].methods| == 8
    }

    ghost function Snapshot(): Table
      reads this
    {
      Table(byIp, lastGc)
    }

    constructor ()
      ensures Valid() && Snapshot() == Table(map[], 0)
    {
      byIp, lastGc := map[], 0;
    }

    method MaybeGc(now: nat)
      modifies this
      ensures Snapshot() == TableSwept(old(Snapshot()), now)
    {
      if SatSub(now, lastGc) > 30 {
        lastGc := now;
        byIp := map ip | ip in byIp && SatSub(now, byIp[ip].lastSeen) <= WINDOW_SECS * 2 :: byIp[ip];
      }
    }

    method Observe(ip: IpAddr, r: Request, now: nat) returns (out: seq<Reason>)
      requires Valid()
      modifies this
      ensures Valid()
      ensures (Snapshot(), out) == Observed(old(Snapshot()), ip, r, now)
    {
      MaybeGc(now);
      var s := if ip in byIp then byIp[ip] else BLANK;
      s := Update(s, r, now);
      byIp := byIp[ip := s];
      out := Judge(s);
    }

    static method Judge(s: State) returns (out: seq<Reason>)
      requires |s.methods| == 8
      ensures out == Reasons(ReportOf(s))
    {
      out := [];
      if s.requestCount >= 30 && |s.paths| < 3 { out := out + [Reason("BHV-LOWDIV", 30)]; }
      var regular := Regularity.CheckRegular(s.intervals, s.requestCount);
      if regular { out := out + [Reason("BHV-REGULAR", 35)]; }
      if s.requestCount >= 25 {
        var opt := s.methods[5] + s.methods[6];
        if 10 * opt >= 9 * s.requestCount { out := out + [Reason("BHV-METHOD-BIAS", 25)]; }
      }
      if |s.uas| >= 3 { out := out + [Reason("BHV-UA-CHURN", 30)]; }
    }

    static method Push(xs: seq<nat>, x: nat, cap: nat) returns (r: seq<nat>)
      requires cap > 0
      ensures r == Pushed(xs, x, cap)
    {
      r := xs;
      if |r| == cap { r := r[1..]; }
      r := r + [x];
    }

    static method Remember(xs: seq<nat>, x: nat, cap: nat) returns (r: seq<nat>)
      requires cap > 0
      ensures r == Remembered(xs, x, cap)
    {
      r := xs;
      if x !in r { r := Push(r, x, cap); }
    }

    static method Update(s0: State, r: Request, now: nat) returns (s: State)
      requires |s0.methods| == 8
      ensures s == Step(s0, r, now) && |s.methods| == 8
    {
      s := s0;
      if SatSub(now, s.lastSeen) > WINDOW_SECS { s := BLANK; }
      if s.firstSeen == 0 { s := s.(firstSeen := now); }
      if s.lastSeen != 0 {
        var intervals := Push(s.intervals, SatSub(now * 1000 + r.ms, s.lastSeen * 1000) % (U32_MAX + 1), INTERVAL_CAP);
        s := s.(intervals := intervals);
      }
      var paths := Remember(s.paths, r.path, PATHS_CAP);
      var uas := s.uas;
      if r.ua.Some? { uas := Remember(s.uas, r.ua.value, UA_CAP); }
      s := s.(lastSeen := now, requestCount := SatAdd32(s.requestCount, 1), paths := paths,
              methods := s.methods[r.verb := SatAdd32(s.methods[r.verb], 1)], uas := uas);
    }
  }
}
