/** The sliding-window rate limiter: a per-route and a global counter for each client. */
module RateLimit {
  import opened Net
  import opened Window
  import opened Words

  /** `re` is the set of paths the compiled pattern of the route matches. */
  datatype Route = Route(re: iset<string>, rpm: nat, burst: nat)

  datatype Config = Config(enabled: bool, rpm: nat, burst: nat, routes: seq<Route>)

  datatype Key = Global(ip: IpAddr) | PerRoute(idx: nat, ip: IpAddr)

  datatype Scope = RouteScope | GlobalScope

  datatype Verdict = Pass | Limited(scope: Scope)

  /** Integer basis points; the quotient is cut to 32 bits. */
  function ScaleRpm(rpm: nat, bps: nat): nat {
    rpm * bps / 10_000 % (U32_MAX + 1)
  }

  function LimitAt(rpm: nat, burst: nat, bps: nat): nat {
    SatAdd32(ScaleRpm(rpm, Max(bps, 100)), burst)
  }

  /** The limits in force at one scale: per matching route, and per client over all routes. */
  datatype Guard = Guard(re: iset<string>, limit: nat)

  datatype Limits = Limits(enabled: bool, guards: seq<Guard>, global: nat)

  function LimitsAt(cfg: Config, bps: nat): Limits {
    Limits(cfg.enabled,
           seq(|cfg.routes|, i requires 0 <= i < |cfg.routes| =>
             Guard(cfg.routes[i].re, LimitAt(cfg.routes[i].rpm, cfg.routes[i].burst, bps))),
           LimitAt(cfg.rpm, cfg.burst, bps))
  }

  predicate Known(l: Limits, k: Key) {
    k.PerRoute? ==> k.idx < |l.guards|
  }

  /** The limit that guards a key. */
  function LimitOf(l: Limits, k: Key): nat
    requires Known(l, k)
  {
    match k
    case Global(_) => l.global
    case PerRoute(i, _) => l.guards[i].limit
  }

  /** The first route from index i on whose pattern matches. */
  function FirstMatch(routes: seq<Guard>, path: string, i: nat): (r: Option<nat>)
    requires i <= |routes|
    ensures match r
      case Some(j) => i <= j < |routes| && path in routes[j].re && forall k | i <= k < j :: path !in routes[k].re
      case None => forall k | i <= k < |routes| :: path !in routes[k].re
    decreases |routes| - i
  {
    if i == |routes| then None
    else if path in routes[i].re then Some(i)
    else FirstMatch(routes, path, i + 1)
  }

  type History = map<Key, seq<nat>>

  /** One check as a function of all hits ever made: the new history and the verdict. A request
      stopped by its route never reaches the global counter. */
  ghost function Check(l: Limits, hist: History, ip: IpAddr, path: string, now: nat): (History, Verdict) {
    if !l.enabled then (hist, Pass)
    else
      match FirstMatch(l.guards, path, 0)
      case Some(i) =>
        var h := Logged(hist, PerRoute(i, ip), now);
        if Recent(Log(h, PerRoute(i, ip)), now) > LimitOf(l, PerRoute(i, ip))
        then (h, Limited(RouteScope))
        else CheckGlobal(l, h, ip, now)
      case None => CheckGlobal(l, hist, ip, now)
  }

  ghost function CheckGlobal(l: Limits, hist: History, ip: IpAddr, now: nat): (History, Verdict) {
    var h := Logged(hist, Global(ip), now);
    (h, if Recent(Log(h, Global(ip)), now) > LimitOf(l, Global(ip)) then Limited(GlobalScope) else Pass)
  }

  // ---- Whole runs ----

  /** A request and the limits in force when it is checked. The source's differ from one request to the
      next only by the scale, which follows the under-attack level. */
  datatype Request = Request(ip: IpAddr, path: string, now: nat, limits: Limits)

  /** The clock never runs backwards. */
  predicate InOrder(run: seq<Request>) {
    forall i, j | 0 <= i < j < |run| :: run[i].now <= run[j].now
  }

  /** Does the check of this request consult key k? */
  predicate Concerns(r: Request, k: Key)
    ensures Concerns(r, k) ==> Known(r.limits, k)
  {
    r.limits.enabled && k.ip == r.ip && (k.PerRoute? ==> FirstMatch(r.limits.guards, r.path, 0) == Some(k.idx))
  }

  ghost function Checked(hist: History, r: Request): (History, Verdict) {
    Check(r.limits, hist, r.ip, r.path, r.now)
  }

  /** The history after the first n requests of a run. */
  ghost function HistAt(run: seq<Request>, n: nat): History
    requires n <= |run|
    decreases n, 1
  {
    if n == 0 then map[] else Outcome(run, n - 1).0
  }

  /** History and verdict after request i of a run. */
  ghost function Outcome(run: seq<Request>, i: nat): (History, Verdict)
    requires i < |run|
    decreases i, 2
  {
    Checked(HistAt(run, i), run[i])
  }

  /** Is request i checked against k and let through? */
  ghost predicate Admits(run: seq<Request>, k: Key, i: nat)
    requires i < |run|
  {
    Concerns(run[i], k) && Outcome(run, i).1.Pass?
  }

  /** The times at which requests that concern k were let through, among the first n. */
  ghost function Admitted(run: seq<Request>, k: Key, n: nat): seq<nat>
    requires n <= |run|
  {
    if n == 0 then []
    else
      var before := Admitted(run, k, n - 1);
      if Admits(run, k, n - 1) then before + [run[n - 1].now] else before
  }

  /** The times of all requests that concern k, among the first n. */
  function Attempts(run: seq<Request>, k: Key, n: nat): seq<nat>
    requires n <= |run|
  {
    if n == 0 then []
    else
      var before := Attempts(run, k, n - 1);
      if Concerns(run[n - 1], k) then before + [run[n - 1].now] else before
  }

  /** The limit under which k last let a request through in the slots lo..hi, among the first n. */
  ghost function LastLimit(run: seq<Request>, k: Key, lo: int, hi: int, n: nat): nat
    requires n <= |run|
  {
    if n == 0 then 0
    else if Admits(run, k, n - 1) && lo <= Slot(run[n - 1].now) <= hi then LimitOf(run[n - 1].limits, k)
    else LastLimit(run, k, lo, hi, n - 1)
  }

  lemma LoggedLog(hist: History, k: Key, now: nat, j: Key)
    ensures Log(Logged(hist, k, now), j) == if j == k then Log(hist, k) + [now] else Log(hist, j)
  {
  }

  /** What one check does to the log of one key: nothing, or one more hit. */
  lemma CheckEffect(hist: History, r: Request, k: Key)
    ensures var h := Checked(hist, r).0;
      Log(h, k) == Log(hist, k) || (Concerns(r, k) && Log(h, k) == Log(hist, k) + [r.now])
  {
    var m := FirstMatch(r.limits.guards, r.path, 0);
    var h := if m.Some? then Logged(hist, PerRoute(m.value, r.ip), r.now) else hist;
    if m.Some? { LoggedLog(hist, PerRoute(m.value, r.ip), r.now, k); }
    LoggedLog(h, Global(r.ip), r.now, k);
    if k.Global? { assert Log(h, k) == Log(hist, k); } else { assert k != Global(r.ip); }
  }

  /** A check that passes has found room under every key it concerns. */
  lemma PassEffect(hist: History, r: Request, k: Key)
    requires Concerns(r, k) && Checked(hist, r).1.Pass?
    ensures var h := Checked(hist, r).0;
      Log(h, k) == Log(hist, k) + [r.now] && Recent(Log(h, k), r.now) <= LimitOf(r.limits, k)
  {
    match FirstMatch(r.limits.guards, r.path, 0)
    case Some(i) =>
      var h := Logged(hist, PerRoute(i, r.ip), r.now);
      GlobalPassEffect(h, r, k);
      LoggedLog(hist, PerRoute(i, r.ip), r.now, k);
    case None =>
      GlobalPassEffect(hist, r, k);
  }

  lemma GlobalPassEffect(hist: History, r: Request, k: Key)
    requires Known(r.limits, k) && k.ip == r.ip && CheckGlobal(r.limits, hist, r.ip, r.now).1.Pass?
    ensures var h := CheckGlobal(r.limits, hist, r.ip, r.now).0;
      if k.Global? then Log(h, k) == Log(hist, k) + [r.now] && Recent(Log(h, k), r.now) <= LimitOf(r.limits, k)
      else Log(h, k) == Log(hist, k)
  {
    LoggedLog(hist, Global(r.ip), r.now, k);
  }

  /** The key on whose account a request is refused. */
  function Culprit(r: Request, scope: Scope): Key {
    if scope.RouteScope? then
      match FirstMatch(r.limits.guards, r.path, 0)
      case Some(i) => PerRoute(i, r.ip)
      case None => Global(r.ip)
    else Global(r.ip)
  }

  lemma RefusalEffect(hist: History, r: Request)
    requires Checked(hist, r).1.Limited?
    ensures var (h, v) := Checked(hist, r);
            var k := Culprit(r, v.scope);
      Concerns(r, k) && Recent(Log(h, k), r.now) > LimitOf(r.limits, k)
  {
    var m := FirstMatch(r.limits.guards, r.path, 0);
    LoggedLog(hist, Global(r.ip), r.now, Global(r.ip));
    if m.Some? {
      var route := PerRoute(m.value, r.ip);
      LoggedLog(hist, route, r.now, route);
      LoggedLog(Logged(hist, route, r.now), Global(r.ip), r.now, Global(r.ip));
    }
  }

  // ---- One key's side of a run ----

  ghost predicate Grew(before: seq<nat>, after: seq<nat>, t: nat) {
    after == before || after == before + [t]
  }

  lemma GrownSix(before: seq<nat>, after: seq<nat>, t: nat, s: int)
    requires Grew(before, after, t)
    ensures Six(after, s) == Six(before, s) + (if after != before && s - 5 <= Slot(t) <= s then 1 else 0)
  {
    HitsSnoc(before, t, s - 5, s);
  }

  /** What a key has admitted, what its counter has logged, and what was attempted, at one point. */
  datatype Marks = Marks(adm: seq<nat>, log: seq<nat>, att: seq<nat>)

  /** One request moves each of the three by at most its own time; an admission is also logged and
      leaves the counter within the limit; a logged hit is also an attempt. */
  ghost predicate Moves(a: Marks, b: Marks, t: nat, limit: nat) {
    && Grew(a.adm, b.adm, t) && Grew(a.log, b.log, t) && Grew(a.att, b.att, t)
    && (b.adm != a.adm ==> b.log != a.log && Recent(b.log, t) <= limit)
    && (b.log != a.log ==> b.att != a.att)
  }

  ghost predicate Lawful(tr: seq<Marks>, times: seq<nat>, limits: seq<nat>) {
    && |tr| == |times| + 1 && |limits| == |times|
    && tr[0] == Marks([], [], [])
    && (forall n | 0 < n <= |times| :: Moves(tr[n - 1], tr[n], times[n - 1], limits[n - 1]))
    && (forall i, j | 0 <= i < j < |times| :: times[i] <= times[j])
  }

  lemma {:induction false} NestedTrace(tr: seq<Marks>, times: seq<nat>, limits: seq<nat>, n: nat, s: int)
    requires Lawful(tr, times, limits) && n < |tr|
    ensures Six(tr[n].adm, s) <= Six(tr[n].log, s) <= Six(tr[n].att, s)
  {
    if n > 0 {
      var (a, b, t) := (tr[n - 1], tr[n], times[n - 1]);
      NestedTrace(tr, times, limits, n - 1, s);
      GrownSix(a.adm, b.adm, t, s);
      GrownSix(a.log, b.log, t, s);
      GrownSix(a.att, b.att, t, s);
    }
  }

  lemma {:induction false} AdmittedUpTo(tr: seq<Marks>, times: seq<nat>, limits: seq<nat>, n: nat)
    requires Lawful(tr, times, limits) && 0 < n < |tr|
    ensures UpTo(tr[n].adm, times[n - 1])
  {
    if n > 1 { AdmittedUpTo(tr, times, limits, n - 1); }
  }

  /** Slots later than the latest logged time add nothing. */
  lemma Capped(log: seq<nat>, now: nat, lo: int, hi: int)
    requires UpTo(log, now) && lo <= Slot(now) <= hi
    ensures HitsIn(log, lo, hi) == HitsIn(log, lo, Slot(now))
  {
    HitsSplit(log, lo, Slot(now), hi);
    NoHits(log, Slot(now) + 1, hi);
  }

  /** A log that keeps to a limit at its latest moment keeps to it in every window of that moment. */
  lemma WithinLimit(log: seq<nat>, now: nat, s: int)
    requires UpTo(log, now) && s - 5 <= Slot(now) <= s
    ensures Six(log, s) <= Recent(log, now)
  {
    Capped(log, now, s - 5, s);
    HitsGrow(log, s - 5, Slot(now), Slot(now) - 5, Slot(now));
  }

  /** The limit of the last admission in the window of slot s. */
  function Bound(tr: seq<Marks>, times: seq<nat>, limits: seq<nat>, n: nat, s: int): nat
    requires |tr| == |times| + 1 && |limits| == |times| && n < |tr|
  {
    if n == 0 then 0
    else if tr[n].adm != tr[n - 1].adm && s - 5 <= Slot(times[n - 1]) <= s then limits[n - 1]
    else Bound(tr, times, limits, n - 1, s)
  }

  lemma {:induction false} BoundHolds(tr: seq<Marks>, times: seq<nat>, limits: seq<nat>, n: nat, s: int)
    requires Lawful(tr, times, limits) && n < |tr|
    ensures Six(tr[n].adm, s) <= Bound(tr, times, limits, n, s)
  {
    if n == 0 {
      NoHits([], s - 5, s);
    } else {
      var (a, b, t) := (tr[n - 1], tr[n], times[n - 1]);
      BoundHolds(tr, times, limits, n - 1, s);
      GrownSix(a.adm, b.adm, t, s);
      if b.adm != a.adm && s - 5 <= Slot(t) <= s {
        AdmittedUpTo(tr, times, limits, n);
        WithinLimit(b.adm, t, s);
        NestedTrace(tr, times, limits, n, Slot(t));
      }
    }
  }

  // ---- Back to runs of the limiter ----

  ghost function MarksAt(run: seq<Request>, k: Key, n: nat): Marks
    requires n <= |run|
  {
    Marks(Admitted(run, k, n), Log(HistAt(run, n), k), Attempts(run, k, n))
  }

  /** The limit k imposes on a request, if any. */
  function LimitFor(r: Request, k: Key): nat {
    if Concerns(r, k) then LimitOf(r.limits, k) else 0
  }

  lemma RequestMoves(run: seq<Request>, k: Key, n: nat)
    requires 0 < n <= |run|
    ensures Moves(MarksAt(run, k, n - 1), MarksAt(run, k, n), run[n - 1].now, LimitFor(run[n - 1], k))
  {
    assert HistAt(run, n) == Outcome(run, n - 1).0;
    CheckEffect(HistAt(run, n - 1), run[n - 1], k);
    if Admits(run, k, n - 1) { PassEffect(HistAt(run, n - 1), run[n - 1], k); }
  }

  lemma TraceOf(run: seq<Request>, k: Key) returns (tr: seq<Marks>, times: seq<nat>, limits: seq<nat>)
    requires InOrder(run)
    ensures Lawful(tr, times, limits) && |tr| == |run| + 1
    ensures forall n | 0 <= n <= |run| :: tr[n] == MarksAt(run, k, n)
    ensures forall i | 0 <= i < |run| :: times[i] == run[i].now && limits[i] == LimitFor(run[i], k)
  {
    times := seq(|run|, i requires 0 <= i < |run| => run[i].now);
    limits := seq(|run|, i requires 0 <= i < |run| => LimitFor(run[i], k));
    tr := seq(|run| + 1, n requires 0 <= n <= |run| => MarksAt(run, k, n));
    forall n | 0 < n <= |times|
      ensures Moves(tr[n - 1], tr[n], times[n - 1], limits[n - 1])
    {
      RequestMoves(run, k, n);
    }
  }

  lemma {:induction false} BoundIsLast(run: seq<Request>, k: Key, tr: seq<Marks>, times: seq<nat>, limits: seq<nat>,
                                       n: nat, s: int)
    requires n <= |run| == |times| == |limits| && |tr| == |run| + 1
    requires forall n | 0 <= n <= |run| :: tr[n] == MarksAt(run, k, n)
    requires forall i | 0 <= i < |run| :: times[i] == run[i].now && limits[i] == LimitFor(run[i], k)
    ensures Bound(tr, times, limits, n, s) == LastLimit(run, k, s - 5, s, n)
  {
    if n > 0 {
      BoundIsLast(run, k, tr, times, limits, n - 1, s);
      assert tr[n].adm == Admitted(run, k, n) && tr[n - 1].adm == Admitted(run, k, n - 1);
    }
  }

  /** In any six consecutive slots of any run, each key admits at most the limit under which it made its
      last admission there, however the limits move in between. */
  lemma AtMostLimitPerWindow(run: seq<Request>, k: Key, s: int)
    requires InOrder(run)
    ensures Six(Admitted(run, k, |run|), s) <= LastLimit(run, k, s - 5, s, |run|)
  {
    var tr, times, limits := TraceOf(run, k);
    BoundHolds(tr, times, limits, |run|, s);
    BoundIsLast(run, k, tr, times, limits, |run|, s);
  }

  /** In seconds: at most that limit in any 51 seconds, and two such limits in any 60. */
  lemma AtMostLimitPerInterval(run: seq<Request>, k: Key, t: nat)
    requires InOrder(run)
    ensures var (adm, last) := (Admitted(run, k, |run|), LastLimit(run, k, Slot(t) - 5, Slot(t), |run|));
      && TimesIn(adm, t - 50, t) <= last
      && TimesIn(adm, t - 59, t) <= LastLimit(run, k, Slot(t) - 11, Slot(t) - 6, |run|) + last
  {
    AtMostLimitPerWindow(run, k, Slot(t));
    AtMostLimitPerWindow(run, k, Slot(t) - 6);
    Intervals(Admitted(run, k, |run|), t);
  }

  lemma Intervals(log: seq<nat>, t: nat)
    ensures TimesIn(log, t - 50, t) <= Six(log, Slot(t))
    ensures TimesIn(log, t - 59, t) <= Six(log, Slot(t) - 6) + Six(log, Slot(t))
  {
    var s: int := Slot(t);
    TimesToHits(log, t - 50, t, s - 5, s);
    TimesToHits(log, t - 59, t, s - 11, s);
    HitsSplit(log, s - 11, s - 6, s);
  }

  lemma {:induction false} LastLimitAtMost(run: seq<Request>, k: Key, lo: int, hi: int, n: nat, limit: nat)
    requires n <= |run| && forall i | 0 <= i < n && Concerns(run[i], k) :: LimitOf(run[i].limits, k) <= limit
    ensures LastLimit(run, k, lo, hi, n) <= limit
  {
    if n > 0 { LastLimitAtMost(run, k, lo, hi, n - 1, limit); }
  }

  /** All requests of the run are checked against the same limits. */
  predicate OneScale(run: seq<Request>, l: Limits) {
    forall i | 0 <= i < |run| :: run[i].limits == l
  }

  /** While the scale stands still these are the one limit and twice the limit. */
  lemma AtOneScale(l: Limits, run: seq<Request>, k: Key, t: nat)
    requires InOrder(run) && Known(l, k) && OneScale(run, l)
    ensures Six(Admitted(run, k, |run|), Slot(t)) <= LimitOf(l, k)
    ensures TimesIn(Admitted(run, k, |run|), t - 50, t) <= LimitOf(l, k)
    ensures TimesIn(Admitted(run, k, |run|), t - 59, t) <= 2 * LimitOf(l, k)
  {
    AtMostLimitPerWindow(run, k, Slot(t));
    AtMostLimitPerInterval(run, k, t);
    LastLimitAtMost(run, k, Slot(t) - 5, Slot(t), |run|, LimitOf(l, k));
    LastLimitAtMost(run, k, Slot(t) - 11, Slot(t) - 6, |run|, LimitOf(l, k));
  }

  /** A client that by its request has not attempted more in any six slots than the limit then in force,
      on any key, is not refused; the other clients of the run do not matter. */
  lemma WellBehavedNeverLimited(run: seq<Request>, n: nat)
    requires 0 < n <= |run| && InOrder(run)
    requires forall k: Key, s: int | Concerns(run[n - 1], k) ::
      Six(Attempts(run, k, n), s) <= LimitOf(run[n - 1].limits, k)
    ensures Outcome(run, n - 1).1.Pass?
  {
    if Outcome(run, n - 1).1.Limited? {
      var k := Culprit(run[n - 1], Outcome(run, n - 1).1.scope);
      var tr, times, limits := TraceOf(run, k);
      NestedTrace(tr, times, limits, n, Slot(run[n - 1].now));
      RefusalEffect(HistAt(run, n - 1), run[n - 1]);
    }
  }

  // ---- 51 seconds is the longest interval the limit itself covers ----

  /** The limit that binds on a path: the client's, or that of the first matching route if it is lower. */
  function Binding(l: Limits, path: string): nat {
    match FirstMatch(l.guards, path, 0)
    case Some(i) => Min(l.guards[i].limit, l.global)
    case None => l.global
  }

  /** It is the limit of one of the keys a request for the path concerns, and the least of them. */
  lemma BindingIsLeast(r: Request)
    requires r.limits.enabled
    ensures forall k | Concerns(r, k) :: Binding(r.limits, r.path) <= LimitOf(r.limits, k)
    ensures exists k :: Concerns(r, k) && Binding(r.limits, r.path) == LimitOf(r.limits, k)
  {
    var g := Global(r.ip);
    assert Concerns(r, g) && LimitOf(r.limits, g) == r.limits.global;
    match FirstMatch(r.limits.guards, r.path, 0)
    case Some(i) =>
      assert Concerns(r, PerRoute(i, r.ip)) && LimitOf(r.limits, PerRoute(i, r.ip)) == r.limits.guards[i].limit;
    case None =>
  }

  /** As many requests at second 9 as the limit allows, and as many again at second 60. */
  predicate Bursts(run: seq<Request>, l: Limits, ip: IpAddr, path: string, n: nat) {
    |run| == n + n && forall i | 0 <= i < n + n :: run[i] == Request(ip, path, if i < n then 9 else 60, l)
  }

  /** The times of the first m of them. */
  function BurstTimes(n: nat, m: nat): seq<nat> {
    if m == 0 then [] else BurstTimes(n, m - 1) + [if m - 1 < n then 9 else 60]
  }

  /** The keys a request for the path concerns have all logged the same. */
  predicate InStep(l: Limits, hist: History, ip: IpAddr, path: string, log: seq<nat>) {
    && Log(hist, Global(ip)) == log
    && match FirstMatch(l.guards, path, 0)
       case Some(i) => Log(hist, PerRoute(i, ip)) == log
       case None => true
  }

  /** A client with room under the binding limit passes, and its logs grow by one. */
  lemma RoomPasses(hist: History, r: Request, log: seq<nat>)
    requires r.limits.enabled && InStep(r.limits, hist, r.ip, r.path, log)
    requires Recent(log + [r.now], r.now) <= Binding(r.limits, r.path)
    ensures var (h, v) := Checked(hist, r);
      v.Pass? && InStep(r.limits, h, r.ip, r.path, log + [r.now])
  {
    var m := FirstMatch(r.limits.guards, r.path, 0);
    if m.Some? {
      var route := PerRoute(m.value, r.ip);
      var h := Logged(hist, route, r.now);
      LoggedLog(hist, route, r.now, route);
      LoggedLog(hist, route, r.now, Global(r.ip));
      LoggedLog(h, Global(r.ip), r.now, route);
      LoggedLog(h, Global(r.ip), r.now, Global(r.ip));
    }
  }

  /** `log` holds the first m requests of the two bursts. */
  ghost predicate BurstLog(log: seq<nat>, n: nat, m: nat) {
    TimesIn(log, 9, 60) == m && Six(log, 0) == Min(m, n) && Six(log, 6) == m - Min(m, n)
  }

  lemma BurstStep(log: seq<nat>, n: nat, m: nat)
    requires BurstLog(log, n, m) && m < n + n
    ensures var t := if m < n then 9 else 60;
      BurstLog(log + [t], n, m + 1) && Recent(log + [t], t) <= n
  {
    var t := if m < n then 9 else 60;
    GrownSix(log, log + [t], t, 0);
    GrownSix(log, log + [t], t, 6);
    TimesSnoc(log, t, 9, 60);
  }

  lemma {:induction false} BurstsFit(n: nat, m: nat)
    requires m <= n + n
    ensures BurstLog(BurstTimes(n, m), n, m)
  {
    if m == 0 {
      NoHits([], -5, 0);
      NoHits([], 1, 6);
      NoTimes([], 9, 60);
    } else {
      BurstsFit(n, m - 1);
      BurstStep(BurstTimes(n, m - 1), n, m - 1);
    }
  }

  /** Are the first m requests of the run all let through? */
  ghost predicate AllPass(run: seq<Request>, m: nat)
    requires m <= |run|
  {
    m > 0 ==> AllPass(run, m - 1) && Outcome(run, m - 1).1.Pass?
  }

  lemma BurstPasses(l: Limits, ip: IpAddr, path: string, n: nat, run: seq<Request>, m: nat)
    requires l.enabled && n == Binding(l, path) && Bursts(run, l, ip, path, n) && m < n + n
    requires InStep(l, HistAt(run, m), ip, path, BurstTimes(n, m))
    ensures InStep(l, HistAt(run, m + 1), ip, path, BurstTimes(n, m + 1)) && Outcome(run, m).1.Pass?
  {
    BurstsFit(n, m);
    BurstStep(BurstTimes(n, m), n, m);
    RoomPasses(HistAt(run, m), run[m], BurstTimes(n, m));
  }

  lemma {:induction false} BurstsPass(l: Limits, ip: IpAddr, path: string, n: nat, run: seq<Request>, m: nat)
    requires l.enabled && n == Binding(l, path) && Bursts(run, l, ip, path, n) && m <= n + n
    ensures InStep(l, HistAt(run, m), ip, path, BurstTimes(n, m)) && AllPass(run, m)
    decreases m
  {
    if m > 0 {
      BurstsPass(l, ip, path, n, run, m - 1);
      BurstPasses(l, ip, path, n, run, m - 1);
    }
  }

  predicate AllConcern(run: seq<Request>, k: Key) {
    forall i | 0 <= i < |run| :: Concerns(run[i], k)
  }

  lemma BurstsConcern(l: Limits, ip: IpAddr, path: string, k: Key, n: nat, run: seq<Request>)
    requires Concerns(Request(ip, path, 0, l), k) && Bursts(run, l, ip, path, n)
    ensures AllConcern(run, k)
  {
  }

  function TimesOf(run: seq<Request>, m: nat): seq<nat>
    requires m <= |run|
  {
    if m == 0 then [] else TimesOf(run, m - 1) + [run[m - 1].now]
  }

  /** Does k let through all of the first m requests? */
  ghost predicate AdmitsAll(run: seq<Request>, k: Key, m: nat)
    requires m <= |run|
  {
    m > 0 ==> AdmitsAll(run, k, m - 1) && Admits(run, k, m - 1)
  }

  lemma {:induction false} PassAdmits(run: seq<Request>, k: Key, m: nat)
    requires m <= |run| && AllPass(run, m) && AllConcern(run, k)
    ensures AdmitsAll(run, k, m)
    decreases m
  {
    if m > 0 { PassAdmits(run, k, m - 1); }
  }

  lemma AdmittedSnoc(run: seq<Request>, k: Key, m: nat)
    requires 0 < m <= |run| && Admits(run, k, m - 1)
    ensures Admitted(run, k, m) == Admitted(run, k, m - 1) + [run[m - 1].now]
  {
  }

  lemma {:induction false} AllAdmitted(run: seq<Request>, k: Key, m: nat)
    requires m <= |run| && AdmitsAll(run, k, m)
    ensures Admitted(run, k, m) == TimesOf(run, m)
    decreases m
  {
    if m > 0 {
      AllAdmitted(run, k, m - 1);
      AdmittedSnoc(run, k, m);
    }
  }

  lemma {:induction false} BurstsTimed(l: Limits, ip: IpAddr, path: string, n: nat, run: seq<Request>, m: nat)
    requires Bursts(run, l, ip, path, n) && m <= n + n
    ensures TimesOf(run, m) == BurstTimes(n, m)
    decreases m
  {
    if m > 0 { BurstsTimed(l, ip, path, n, run, m - 1); }
  }

  lemma BurstsAdmitted(l: Limits, ip: IpAddr, path: string, k: Key, n: nat, run: seq<Request>)
    requires Concerns(Request(ip, path, 0, l), k) && n == Binding(l, path) && Bursts(run, l, ip, path, n)
    ensures Admitted(run, k, |run|) == TimesOf(run, |run|)
  {
    BurstsPass(l, ip, path, n, run, |run|);
    BurstsConcern(l, ip, path, k, n, run);
    PassAdmits(run, k, |run|);
    AllAdmitted(run, k, |run|);
  }

  lemma BurstsInOrder(l: Limits, ip: IpAddr, path: string, n: nat, run: seq<Request>)
    requires Bursts(run, l, ip, path, n)
    ensures InOrder(run) && OneScale(run, l)
  {
  }

  lemma BurstsTotal(n: nat)
    ensures TimesIn(BurstTimes(n, n + n), 60 - 51, 60) == 2 * n
  {
    BurstsFit(n, n + n);
  }

  /** The key lets through `count` requests in the 52 seconds up to second 60. */
  ghost predicate Admits52(run: seq<Request>, k: Key, count: nat) {
    TimesIn(Admitted(run, k, |run|), 60 - 51, 60) == count
  }

  lemma BurstsAdmit52(l: Limits, ip: IpAddr, path: string, k: Key, n: nat, run: seq<Request>)
    requires Concerns(Request(ip, path, 0, l), k) && n == Binding(l, path) && Bursts(run, l, ip, path, n)
    ensures Admits52(run, k, 2 * n)
  {
    BurstsAdmitted(l, ip, path, k, n, run);
    BurstsTimed(l, ip, path, n, run, n + n);
    BurstsTotal(n);
  }

  /** Stretch the interval to 52 seconds and, on every path and at a scale that stands still, some run
      admits twice the binding limit under every key it concerns. */
  lemma TwiceTheLimit(l: Limits, ip: IpAddr, path: string, k: Key)
    requires Concerns(Request(ip, path, 0, l), k)
    ensures exists run :: InOrder(run) && OneScale(run, l) && Admits52(run, k, 2 * Binding(l, path))
  {
    var n := Binding(l, path);
    var run := seq(n + n, i => Request(ip, path, if i < n then 9 else 60, l));
    BurstsInOrder(l, ip, path, n, run);
    BurstsAdmit52(l, ip, path, k, n, run);
  }

  /** A tighter scale never raises a limit: the step behind every level of under-attack mode. */
  lemma LimitMonotone(rpm: nat, burst: nat, low: nat, high: nat)
    requires low <= high <= 10_000 && rpm <= U32_MAX
    ensures LimitAt(rpm, burst, low) <= LimitAt(rpm, burst, high)
  {
    ScaleExact(rpm, Max(low, 100), Max(high, 100));
  }

  /** Up to 100 percent the scaled rate is at most the rate, so nothing is cut off. */
  lemma ScaleExact(rpm: nat, x: nat, y: nat)
    requires x <= y <= 10_000 && rpm <= U32_MAX
    ensures ScaleRpm(rpm, x) <= ScaleRpm(rpm, y) <= rpm
  {
    MulMonotone(rpm, x, y);
    MulMonotone(rpm, y, 10_000);
    Quotients(rpm * x, rpm * y, rpm);
  }

  lemma Quotients(a: nat, b: nat, c: nat)
    requires a <= b <= c * 10_000 && c <= U32_MAX
    ensures a / 10_000 % (U32_MAX + 1) <= b / 10_000 % (U32_MAX + 1) <= c
  {
    assert a / 10_000 <= b / 10_000 <= c;
  }

  lemma MulMonotone(a: nat, b: nat, c: nat)
    requires b <= c
    ensures a * b <= a * c
  {
  }

  // ---- In the numbers of the configuration ----

  /** The rate and the burst configured for a key. */
  function RateOf(cfg: Config, k: Key): nat
    requires k.PerRoute? ==> k.idx < |cfg.routes|
  {
    if k.Global? then cfg.rpm else cfg.routes[k.idx].rpm
  }

  function BurstOf(cfg: Config, k: Key): nat
    requires k.PerRoute? ==> k.idx < |cfg.routes|
  {
    if k.Global? then cfg.burst else cfg.routes[k.idx].burst
  }

  lemma Floor(a: nat, d: nat, n: int)
    requires d > 0
    ensures n <= a / d <==> d * n <= a
  {
    var q := a / d;
    assert a == d * q + a % d;
    if n <= q { MulSteps(d, n, q); } else { MulSteps(d, q + 1, n); }
  }

  lemma MulSteps(d: nat, a: int, b: int)
    requires a <= b
    ensures d * a <= d * b
  {
    assert d * (b - a) >= 0;
    assert d * b - d * a == d * (b - a);
  }

  lemma ScaleFits(rpm: nat, bps: nat)
    requires bps <= 10_000 && rpm <= U32_MAX
    ensures ScaleRpm(rpm, bps) == rpm * bps / 10_000
  {
    MulMonotone(rpm, bps, 10_000);
    assert rpm * bps / 10_000 <= rpm;
  }

  /** At full scale the rate is the configured one. */
  lemma FullScale(rpm: nat)
    requires rpm <= U32_MAX
    ensures ScaleRpm(rpm, 10_000) == rpm
  {
    ScaleFits(rpm, 10_000);
  }

  /** A count is within the limit in force exactly when, the burst taken off, it is at most bps / 10000 of
      the configured rate, one percent of it at the least, and fits 32 bits. */
  lemma WithinExactly(cfg: Config, bps: nat, k: Key, n: nat)
    requires (k.PerRoute? ==> k.idx < |cfg.routes|) && bps <= 10_000 && RateOf(cfg, k) <= U32_MAX
    ensures n <= LimitOf(LimitsAt(cfg, bps), k)
       <==> n <= U32_MAX && 10_000 * (n - BurstOf(cfg, k)) <= RateOf(cfg, k) * Max(bps, 100)
  {
    var (rate, burst, scale) := (RateOf(cfg, k), BurstOf(cfg, k), Max(bps, 100));
    ScaleFits(rate, scale);
    Floor(rate * scale, 10_000, n - burst);
  }

  /** At full scale, then, the limit is rate plus burst. */
  lemma FullLimit(cfg: Config, k: Key)
    requires (k.PerRoute? ==> k.idx < |cfg.routes|) && RateOf(cfg, k) <= U32_MAX
    ensures LimitOf(LimitsAt(cfg, 10_000), k) == Min(RateOf(cfg, k) + BurstOf(cfg, k), U32_MAX)
  {
    FullScale(RateOf(cfg, k));
  }

  /** At a scale that stands still a key admits in any 51 seconds no more than its share of the configured
      rate and the burst, and in any 60 seconds no more than twice that. */
  lemma AtMostConfigured(cfg: Config, bps: nat, run: seq<Request>, k: Key, t: nat)
    requires (k.PerRoute? ==> k.idx < |cfg.routes|) && bps <= 10_000 && RateOf(cfg, k) <= U32_MAX
    requires InOrder(run) && OneScale(run, LimitsAt(cfg, bps))
    ensures var (adm, share) := (Admitted(run, k, |run|), RateOf(cfg, k) * Max(bps, 100));
      && 10_000 * (TimesIn(adm, t - 50, t) - BurstOf(cfg, k)) <= share
      && 10_000 * (TimesIn(adm, t - 59, t) - 2 * BurstOf(cfg, k)) <= 2 * share
  {
    var (l, adm) := (LimitsAt(cfg, bps), Admitted(run, k, |run|));
    AtOneScale(l, run, k, t);
    WithinExactly(cfg, bps, k, TimesIn(adm, t - 50, t));
    WithinExactly(cfg, bps, k, LimitOf(l, k));
  }

  /** A client that keeps to its share of the configured rates and bursts in every six slots is not refused. */
  lemma WithinConfiguredPasses(cfg: Config, bps: nat, run: seq<Request>, n: nat)
    requires 0 < n <= |run| && InOrder(run) && run[n - 1].limits == LimitsAt(cfg, bps) && bps <= 10_000
    requires forall k: Key, s: int | Concerns(run[n - 1], k) ::
      && RateOf(cfg, k) <= U32_MAX && Six(Attempts(run, k, n), s) <= U32_MAX
      && 10_000 * (Six(Attempts(run, k, n), s) - BurstOf(cfg, k)) <= RateOf(cfg, k) * Max(bps, 100)
    ensures Outcome(run, n - 1).1.Pass?
  {
    forall k: Key, s: int | Concerns(run[n - 1], k)
      ensures Six(Attempts(run, k, n), s) <= LimitOf(run[n - 1].limits, k)
    {
      WithinExactly(cfg, bps, k, Six(Attempts(run, k, n), s));
    }
    WellBehavedNeverLimited(run, n);
  }

  /** One check, hit for hit: a limiter that is off counts nothing and lets everything pass; else the
      request counts under the first route that matches and, unless that one refuses it, under its client;
      and it is refused by the one whose six slots, this request included, hold more than the limit. */
  lemma CheckExactly(l: Limits, hist: History, ip: IpAddr, path: string, now: nat, k: Key)
    ensures var (h, v) := Check(l, hist, ip, path, now);
            var m := FirstMatch(l.guards, path, 0);
      && (!l.enabled ==> h == hist && v.Pass?)
      && (l.enabled ==>
            var routed := m.Some? && Recent(Log(hist, PerRoute(m.value, ip)) + [now], now) > l.guards[m.value].limit;
            var limited := Recent(Log(hist, Global(ip)) + [now], now) > l.global;
            && v == (if routed then Limited(RouteScope) else if limited then Limited(GlobalScope) else Pass)
            && (Log(h, k) == if (m.Some? && k == PerRoute(m.value, ip)) || (k == Global(ip) && !routed)
                             then Log(hist, k) + [now] else Log(hist, k)))
  {
  }

  // ---- The running limiter ----

  class RateLimiter {
    const cfg: Config
    const table: CounterTable<Key>

    ghost predicate Valid()
      reads this, table, table.Repr
    {
      table.Valid()
    }

    constructor (cfg: Config)
      ensures Valid() && fresh(table) && fresh(table.Repr) && this.cfg == cfg
      ensures table.hist == map[] && table.clock == 0
    {
      this.cfg := cfg;
      table := new CounterTable();
    }

    /** On no key does the client have as many hits in the six slots up to `now` as 32 bits can count. */
    ghost predicate Roomy(ip: IpAddr, now: nat)
      reads table
    {
      forall k: Key | k.ip == ip :: Recent(Log(table.hist, k), now) < U32_MAX
    }

    /** The routes in order, up to the first that matches; true when that route is exhausted. */
    method CheckRoutes(ip: IpAddr, path: string, scale: nat, now: nat, ghost l: Limits) returns (limited: bool)
      requires Valid() && table.clock <= now && Roomy(ip, now) && l == LimitsAt(cfg, scale) && scale >= 100
      modifies table.Repr
      ensures Valid() && fresh(table.Repr - old(table.Repr)) && table.clock <= now
      ensures match FirstMatch(l.guards, path, 0)
        case Some(i) =>
          && table.hist == Logged(old(table.hist), PerRoute(i, ip), now)
          && (limited <==> Recent(Log(table.hist, PerRoute(i, ip)), now) > l.guards[i].limit)
        case None => table.hist == old(table.hist) && !limited
    {
      var i := 0;
      while i < |cfg.routes|
        invariant i <= |cfg.routes| && FirstMatch(l.guards, path, i) == FirstMatch(l.guards, path, 0)
      {
        var r := cfg.routes[i];
        if path in r.re {
          var count := table.Bump(PerRoute(i, ip), now);
          return count > SatAdd32(ScaleRpm(r.rpm, scale), r.burst);
        }
        i := i + 1;
      }
      return false;
    }

    method CheckClient(ip: IpAddr, scale: nat, now: nat, ghost l: Limits) returns (v: Verdict)
      requires Valid() && table.clock <= now && l == LimitsAt(cfg, scale) && scale >= 100
      requires Recent(Log(table.hist, Global(ip)), now) < U32_MAX
      modifies table.Repr
      ensures Valid() && fresh(table.Repr - old(table.Repr)) && table.clock <= now
      ensures (table.hist, v) == CheckGlobal(l, old(table.hist), ip, now)
    {
      var count := table.Bump(Global(ip), now);
      v := if count > SatAdd32(ScaleRpm(cfg.rpm, scale), cfg.burst) then Limited(GlobalScope) else Pass;
    }

    /** The verdict is a function of the hits ever made: which counters a sweep has dropped, and
        when, cannot be seen in it. */
    method CheckScaled(ip: IpAddr, path: string, bps: nat, now: nat) returns (v: Verdict)
      requires Valid() && table.clock <= now && Roomy(ip, now)
      modifies table.Repr
      ensures Valid() && fresh(table.Repr - old(table.Repr)) && table.clock <= now
      ensures (table.hist, v) == Check(LimitsAt(cfg, bps), old(table.hist), ip, path, now)
    {
      if !cfg.enabled { return Pass; }
      var scale := Max(bps, 100);
      ghost var l := LimitsAt(cfg, scale);
      assert l == LimitsAt(cfg, bps);
      var limited := CheckRoutes(ip, path, scale, now, l);
      if limited { return Limited(RouteScope); }
      v := CheckClient(ip, scale, now, l);
    }

    /** The housekeeping sweep; it runs with an age of 120 seconds. */
    method Gc(now: nat, maxAge: nat)
      requires Valid() && table.clock <= now && maxAge >= BUCKETS * BUCKET_SECS
      modifies table.Repr
      ensures Valid() && table.clock == now && table.hist == old(table.hist)
    {
      table.Gc(now, maxAge);
    }
  }
}
