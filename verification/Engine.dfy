/** The decision engine: a long short-circuiting pipeline over the trackers, tightened by the
    under-attack level. */
module Engine {
  import Bans
  import Behavior
  import GoodBot
  import RateLimit
  import Reputation
  import Subnet
  import Trackers
  import opened Connections
  import opened Decision
  import opened Net
  import opened Words

  // ---- Under-attack levels ----

  datatype UamParams = UamParams(forceChallenge: bool, rpmScale: nat, challengeDrop: nat, blockDrop: nat, clamp: nat)

  const OFF: nat := 0
  const MEDIUM: nat := 2
  const EXTREME: nat := 4
  const FULL_SCALE: nat := 10_000

  /** Which checks are on. */
  datatype Switches = Switches(
    goodbot: bool, honeypots: bool, rateLimit: bool, bic: bool, botScore: bool, ddos: bool, datacenter: bool,
    trackers: Trackers.Asked, botUa: bool, sqli: bool, xss: bool, traversal: bool, cmdi: bool, lfi: bool)

  /** Switches and dials the operator may turn while the engine runs. */
  datatype Runtime = Runtime(
    uam: nat, underAttack: bool, rpmUnderAttack: nat,
    allow: iset<IpAddr>, deny: iset<IpAddr>,
    maxPerIp: nat, blockThreshold: nat, challengeThreshold: nat, tarpitScore: nat,
    caps: Subnet.Caps, on: Switches)

  /** The level in force: an unknown stored level is Off, and the older flag turns Off into Medium. */
  function Level(rt: Runtime): (l: nat)
    ensures l <= EXTREME
  {
    var l := if rt.uam <= EXTREME then rt.uam else OFF;
    if l == OFF && rt.underAttack then MEDIUM else l
  }

  function ParamsOf(level: nat): UamParams
    requires level <= EXTREME
  {
    if level == OFF then UamParams(false, FULL_SCALE, 0, 0, 0)
    else if level == 1 then UamParams(false, 7_500, 5, 5, 0)
    else if level == MEDIUM then UamParams(true, 5_000, 10, 10, 0)
    else if level == 3 then UamParams(true, 2_500, 15, 15, 50)
    else UamParams(true, 1_000, 20, 20, 25)
  }

  function Uam(rt: Runtime): UamParams {
    ParamsOf(Level(rt))
  }

  /** The scale of the rate limits. */
  function Scale(rt: Runtime): nat {
    if Uam(rt).rpmScale < FULL_SCALE then Uam(rt).rpmScale
    else if rt.underAttack then rt.rpmUnderAttack
    else FULL_SCALE
  }

  /** The separate scale of the older flag is never used: with the flag on, the level is not Off. */
  lemma LegacyScaleUnused(rt: Runtime)
    ensures Scale(rt) == Uam(rt).rpmScale
  {
  }

  /** Concurrent requests allowed to one address; zero switches the check off. */
  function ConnCap(rt: Runtime): nat {
    if Uam(rt).clamp > 0 then Min(rt.maxPerIp, Uam(rt).clamp) else rt.maxPerIp
  }

  // ---- Requests ----

  /** One request, with what the tables and pattern rules that keep no state say about it. `cleared`
      and `bicValid` are whether it carries a valid cookie of the two kinds; path, User-Agent and
      their combination with the method come hashed as well. */
  datatype Request = Request(
    ip: IpAddr, path: string, ua: string, pathHash: nat, uaHash: nat, signature: nat, verb: Behavior.Method, ms: nat,
    cleared: bool, bicValid: bool, trap: Option<Reason>,
    methodAllowed: bool, uriLen: nat, headerLens: seq<nat>, contentLength: Option<nat>,
    hostEmpty: bool, clAndChunked: bool,
    geo: seq<Reason>, botReasons: seq<Reason>, ddosReasons: seq<Reason>, inDatacenter: bool,
    uaSuspicious: bool, sqliRule: Option<string>, xssRule: Option<string>, traversalRule: Option<string>,
    cmdiRule: Option<string>, lfiRule: Option<string>)

  function ProbeOf(r: Request): Trackers.Probe {
    Trackers.Probe(r.ip, Behavior.Request(r.pathHash, r.verb, if r.ua == "" then None else Some(r.uaHash), r.ms),
                   r.signature)
  }

  datatype HardLimits = HardLimits(maxUri: nat, maxHeaders: nat, maxHeaderValue: nat, maxBody: nat)

  datatype Setup = Setup(reputation: Reputation.Config, limits: HardLimits, rates: RateLimit.Config,
                         bots: seq<GoodBot.Bot>)

  /** The tracked state a verdict depends on and changes; `lookups` are the DNS lookups started so far. */
  datatype World = World(bans: Bans.Store, hist: RateLimit.History, conns: map<IpAddr, int>,
                         tables: Trackers.Tables, cache: map<IpAddr, GoodBot.CacheEntry>,
                         lookups: seq<GoodBot.Lookup>)

  /** The world of a process that has just started beside a ban file. */
  function Started(disk: map<IpAddr, Bans.Saved>): World {
    World(Bans.Store(map[], disk, false), map[], map[], Trackers.UNUSED, map[], [])
  }

  // ---- The stages ----

  /** Allow lists, deny lists and bans. */
  function Lists(e: Setup, rt: Runtime, bans: Bans.Store, r: Request, now: nat): Option<Decision> {
    if r.ip in rt.allow then Some(Allowed())
    else
      match Bans.Classify(e.reputation, bans, r.ip, now)
      case Allow => Some(Allowed())
      case Deny => Some(Blocked(403, Reason("REP-DENY", 100)))
      case Unknown => if r.ip in rt.deny then Some(Blocked(403, Reason("REP-DENY-RT", 100))) else None
  }

  /** What the crawler cache says of the request, and the lookup it may start. */
  function Crawler(e: Setup, rt: Runtime, w: World, r: Request, now: nat): (World, GoodBot.Verdict) {
    var claim := GoodBot.Claim(e.bots, r.ua);
    if !rt.on.goodbot then (w, GoodBot.NotABot)
    else if GoodBot.Starts(w.cache, r.ip, claim, now) then
      (w.(cache := w.cache[r.ip := GoodBot.CacheEntry(GoodBot.Pending, now + GoodBot.PENDING_TTL)],
          lookups := w.lookups + [GoodBot.Lookup(r.ip, claim.value)]),
       GoodBot.GoodBotPending)
    else (w, GoodBot.VerdictOf(w.cache, r.ip, claim, now))
  }

  predicate Trapped(rt: Runtime, r: Request) {
    rt.on.honeypots && r.trap.Some?
  }

  predicate OverCap(rt: Runtime, conns: map<IpAddr, int>, r: Request) {
    ConnCap(rt) > 0 && Count(conns, r.ip) > ConnCap(rt)
  }

  function HardLimit(l: HardLimits, r: Request): Option<Decision> {
    if !r.methodAllowed then Some(Blocked(405, Reason("METHOD-DENIED", 100)))
    else if r.uriLen > l.maxUri then Some(Blocked(414, Reason("URI-TOO-LONG", 100)))
    else if |r.headerLens| > l.maxHeaders then Some(Blocked(431, Reason("TOO-MANY-HEADERS", 100)))
    else if exists i :: 0 <= i < |r.headerLens| && r.headerLens[i] > l.maxHeaderValue
      then Some(Blocked(431, Reason("HEADER-TOO-LONG", 100)))
    else if r.contentLength.Some? && r.contentLength.value > l.maxBody
      then Some(Blocked(413, Reason("BODY-TOO-LARGE", 100)))
    else None
  }

  /** The concurrency cap, then the hard limits. */
  function Gate(e: Setup, rt: Runtime, conns: map<IpAddr, int>, r: Request): Option<Decision> {
    if OverCap(rt, conns, r) then Some(Blocked(429, Reason("CONN-CAP", 100))) else HardLimit(e.limits, r)
  }

  function If(b: bool, ruleId: string, score: nat): seq<Reason> {
    if b then [Reason(ruleId, score)] else []
  }

  function When(b: bool, reasons: seq<Reason>): seq<Reason> {
    if b then reasons else []
  }

  function Hit(on: bool, rule: Option<string>, score: nat): seq<Reason> {
    if on && rule.Some? then [Reason(rule.value, score)] else []
  }

  function HeaderReasons(r: Request): seq<Reason> {
    If(r.hostEmpty, "HDR-NO-HOST", 100) + If(r.ua == "", "HDR-NO-UA", 10)
    + If(|r.headerLens| < 3, "HDR-MINIMAL", 20) + If(r.clAndChunked, "HDR-CL-TE", 25)
  }

  /** Who is asking. */
  function OriginReasons(r: Request, bot: GoodBot.Verdict): seq<Reason> {
    [] + If(bot.GoodBotSpoofed?, "GOODBOT-SPOOF", 60) + r.geo + HeaderReasons(r)
  }

  /** Who is asking, and how. */
  function ClientReasons(on: Switches, r: Request, bot: GoodBot.Verdict, behavior: seq<Reason>): seq<Reason> {
    OriginReasons(r, bot)
    + When(!bot.GoodBotPending? && !(on.bic && r.bicValid) && on.botScore, r.botReasons)
    + behavior + When(on.ddos, r.ddosReasons)
    + If(on.datacenter && r.inDatacenter, "DC-RANGE", 25)
  }

  /** What floods and attacks the request looks to be part of, after the reasons found so far. */
  function AttackReasons(on: Switches, r: Request, a: Trackers.Answers, sofar: seq<Reason>): seq<Reason> {
    sofar + a.subnet + a.replay + a.distUa
    + If(on.botUa && r.ua != "" && r.uaSuspicious, "UA-SUSPICIOUS", 60)
    + Hit(on.sqli, r.sqliRule, 80) + Hit(on.xss, r.xssRule, 80) + Hit(on.traversal, r.traversalRule, 70)
    + Hit(on.cmdi, r.cmdiRule, 80) + Hit(on.lfi, r.lfiRule, 70)
  }

  function Reasons(on: Switches, r: Request, bot: GoodBot.Verdict, a: Trackers.Answers): seq<Reason> {
    AttackReasons(on, r, a, ClientReasons(on, r, bot, a.behavior))
  }

  function Score(reasons: seq<Reason>): nat {
    Min(Total(reasons), U32_MAX)
  }

  predicate OverBlock(rt: Runtime, reasons: seq<Reason>) {
    Score(reasons) >= SatSub(rt.blockThreshold, Uam(rt).blockDrop)
  }

  predicate OverTarpit(rt: Runtime, reasons: seq<Reason>) {
    rt.tarpitScore > 0 && Score(reasons) >= rt.tarpitScore
  }

  /** The decision on the score alone. */
  function Weighed(rt: Runtime, reasons: seq<Reason>): Decision {
    var score := Score(reasons);
    if OverBlock(rt, reasons) then
      if OverTarpit(rt, reasons) then Tarpitted(score, reasons)
      else Blocked(403, if reasons == [] then Reason("ANOMALY", score) else reasons[0])
    else if score >= SatSub(rt.challengeThreshold, Uam(rt).challengeDrop) then Challenged(score, reasons)
    else Allowed()
  }

  /** What the trackers say of the request, and the tables after they have seen it. */
  ghost function Asked(rt: Runtime, w: World, r: Request, now: nat): (Trackers.Tables, Trackers.Answers) {
    Trackers.Observed(rt.on.trackers, w.tables, ProbeOf(r), rt.caps, now)
  }

  ghost function ReasonsAt(rt: Runtime, w: World, r: Request, bot: GoodBot.Verdict, now: nat): seq<Reason> {
    Reasons(rt.on, r, bot, Asked(rt, w, r, now).1)
  }

  /** The decision on the score, given the reasons and the tables left behind; a block on the score
      is an offence. */
  function Settled(e: Setup, rt: Runtime, w: World, ip: IpAddr, reasons: seq<Reason>, now: nat, ok: bool):
      (World, Decision)
  {
    (if OverBlock(rt, reasons) then w.(bans := Bans.Apply(e.reputation, w.bans, Bans.Offend(ip, now, ok))) else w,
     Weighed(rt, reasons))
  }

  /** Ask the trackers, then decide. */
  ghost function Judged(e: Setup, rt: Runtime, w: World, r: Request, bot: GoodBot.Verdict, now: nat, ok: bool):
      (World, Decision)
  {
    Settled(e, rt, w.(tables := Asked(rt, w, r, now).0), r.ip, ReasonsAt(rt, w, r, bot, now), now, ok)
  }

  /** What happens to a request no early check has stopped. */
  ghost function Tail(e: Setup, rt: Runtime, w: World, r: Request, bot: GoodBot.Verdict, now: nat, ok: bool):
      (World, Decision)
  {
    if r.cleared then (w, Allowed())
    else if Uam(rt).forceChallenge then (w, Challenged(100, [Reason("UAM-FORCE", 100)]))
    else Judged(e, rt, w, r, bot, now, ok)
  }

  ghost function Rated(e: Setup, rt: Runtime, w: World, r: Request, now: nat): (World, RateLimit.Verdict) {
    if rt.on.rateLimit then
      var (h, v) := RateLimit.Check(RateLimit.LimitsAt(e.rates, Scale(rt)), w.hist, r.ip, r.path, now);
      (w.(hist := h), v)
    else (w, RateLimit.Pass)
  }

  /** Rate limits, then the tail. */
  ghost function Late(e: Setup, rt: Runtime, w: World, r: Request, bot: GoodBot.Verdict, now: nat, ok: bool):
      (World, Decision)
  {
    var (w', v) := Rated(e, rt, w, r, now);
    if v.Limited? then (w', Blocked(429, Reason("RL-01", 30))) else Tail(e, rt, w', r, bot, now, ok)
  }

  /** Caps and limits. */
  ghost function Gated(e: Setup, rt: Runtime, w: World, r: Request, bot: GoodBot.Verdict, now: nat, ok: bool):
      (World, Decision)
  {
    match Gate(e, rt, w.conns, r)
    case Some(d) => (w, d)
    case None => Late(e, rt, w, r, bot, now, ok)
  }

  /** Traps, caps and limits, for a request no list has decided. */
  ghost function Checked(e: Setup, rt: Runtime, w: World, r: Request, bot: GoodBot.Verdict, now: nat, ok: bool):
      (World, Decision)
  {
    if Trapped(rt, r) then
      (w.(bans := Bans.Apply(e.reputation, w.bans, Bans.BanFor(r.ip, e.reputation.duration, now, ok))),
       Blocked(403, r.trap.value))
    else Gated(e, rt, w, r, bot, now, ok)
  }

  /** The crawler check and what follows it. */
  ghost function Unlisted(e: Setup, rt: Runtime, w: World, r: Request, now: nat, ok: bool): (World, Decision) {
    var (w', bot) := Crawler(e, rt, w, r, now);
    if bot.GoodBotVerified? then (w', Allowed()) else Checked(e, rt, w', r, bot, now, ok)
  }

  /** `Engine::evaluate`. `ok` is whether a write of the ban file, should there be one, succeeds. */
  ghost function Outcome(e: Setup, rt: Runtime, w: World, r: Request, now: nat, ok: bool): (World, Decision) {
    match Lists(e, rt, w.bans, r, now)
    case Some(d) => (w, d)
    case None => Unlisted(e, rt, w, r, now, ok)
  }

  // ---- What the hard limits mean ----

  /** Every limit holds. */
  ghost predicate WithinLimits(l: HardLimits, r: Request) {
    && r.methodAllowed && r.uriLen <= l.maxUri && |r.headerLens| <= l.maxHeaders
    && (forall i | 0 <= i < |r.headerLens| :: r.headerLens[i] <= l.maxHeaderValue)
    && (r.contentLength.Some? ==> r.contentLength.value <= l.maxBody)
  }

  /** A request is turned down exactly when it breaks a limit, always by a block of score 100 with one
      reason; the status tells which limit is broken: 405 for the method alone, 414 for the URI when
      the method is in order, 431 for the headers when both are, 413 for the body when all else is. */
  lemma HardLimitsExact(l: HardLimits, r: Request)
    ensures HardLimit(l, r).None? <==> WithinLimits(l, r)
    ensures HardLimit(l, r).Some? ==> var d := HardLimit(l, r).value;
      && d.action == Block && d.score == 100 && |d.reasons| == 1
      && (d.status == 405 <==> !r.methodAllowed)
      && (d.status == 414 <==> r.methodAllowed && r.uriLen > l.maxUri)
      && (d.status == 413 <==> !WithinLimits(l, r) && WithinLimits(l, r.(contentLength := None)))
      && d.status in {405, 413, 414, 431}
      && d.reasons[0] == Reason(
           if d.status == 405 then "METHOD-DENIED" else if d.status == 414 then "URI-TOO-LONG"
           else if d.status == 413 then "BODY-TOO-LARGE"
           else if |r.headerLens| > l.maxHeaders then "TOO-MANY-HEADERS" else "HEADER-TOO-LONG", 100)
  {
  }

  /** Raising the limits, or trimming a request, turns down nothing that was let through. */
  lemma HardLimitsMonotone(l: HardLimits, l': HardLimits, r: Request, r': Request)
    requires HardLimit(l, r).None?
    requires l.maxUri <= l'.maxUri && l.maxHeaders <= l'.maxHeaders
    requires l.maxHeaderValue <= l'.maxHeaderValue && l.maxBody <= l'.maxBody
    requires r'.methodAllowed && r'.uriLen <= r.uriLen && |r'.headerLens| <= |r.headerLens|
    requires forall i | 0 <= i < |r'.headerLens| :: r'.headerLens[i] <= r.headerLens[i]
    requires r'.contentLength.Some? ==> r.contentLength.Some? && r'.contentLength.value <= r.contentLength.value
    ensures HardLimit(l', r').None?
  {
    HardLimitsExact(l, r);
    HardLimitsExact(l', r');
    assert forall i | 0 <= i < |r'.headerLens| :: r'.headerLens[i] <= r.headerLens[i] <= l.maxHeaderValue;
  }

  // ---- Raising the level never lets more through ----

  /** Nothing but the two under-attack settings differs. */
  predicate SameButLevel(rt: Runtime, rt': Runtime) {
    rt' == rt.(uam := rt'.uam, underAttack := rt'.underAttack)
  }

  predicate FitsWords(c: RateLimit.Config) {
    c.rpm <= U32_MAX && forall i | 0 <= i < |c.routes| :: c.routes[i].rpm <= U32_MAX
  }

  lemma Tightened(rt: Runtime, rt': Runtime)
    requires SameButLevel(rt, rt') && Level(rt) <= Level(rt')
    ensures Scale(rt') <= Scale(rt) <= FULL_SCALE
    ensures Uam(rt).forceChallenge ==> Uam(rt').forceChallenge
    ensures SatSub(rt'.blockThreshold, Uam(rt').blockDrop) <= SatSub(rt.blockThreshold, Uam(rt).blockDrop)
    ensures SatSub(rt'.challengeThreshold, Uam(rt').challengeDrop)
         <= SatSub(rt.challengeThreshold, Uam(rt).challengeDrop)
    ensures ConnCap(rt) > 0 ==> 0 < ConnCap(rt') <= ConnCap(rt)
  {
  }

  /** Every limit of l' is at most that of l. */
  ghost predicate Tighter(l: RateLimit.Limits, l': RateLimit.Limits) {
    && l'.enabled == l.enabled && l'.global <= l.global && |l'.guards| == |l.guards|
    && forall i | 0 <= i < |l.guards| :: l'.guards[i].re == l.guards[i].re && l'.guards[i].limit <= l.guards[i].limit
  }

  lemma LimitsTighten(c: RateLimit.Config, bps: nat, bps': nat)
    requires FitsWords(c) && bps' <= bps <= FULL_SCALE
    ensures Tighter(RateLimit.LimitsAt(c, bps), RateLimit.LimitsAt(c, bps'))
  {
    RateLimit.LimitMonotone(c.rpm, c.burst, bps', bps);
    forall i | 0 <= i < |c.routes|
      ensures RateLimit.LimitAt(c.routes[i].rpm, c.routes[i].burst, bps')
           <= RateLimit.LimitAt(c.routes[i].rpm, c.routes[i].burst, bps)
    {
      RateLimit.LimitMonotone(c.routes[i].rpm, c.routes[i].burst, bps', bps);
    }
  }

  lemma {:induction false} SameMatch(gs: seq<RateLimit.Guard>, gs': seq<RateLimit.Guard>, path: string, i: nat)
    requires i <= |gs| == |gs'| && forall k | 0 <= k < |gs| :: gs'[k].re == gs[k].re
    ensures RateLimit.FirstMatch(gs', path, i) == RateLimit.FirstMatch(gs, path, i)
    decreases |gs| - i
  {
    if i < |gs| { SameMatch(gs, gs', path, i + 1); }
  }

  lemma TighterLimits(l: RateLimit.Limits, l': RateLimit.Limits, hist: RateLimit.History,
                      ip: IpAddr, path: string, now: nat)
    requires Tighter(l, l') && RateLimit.Check(l, hist, ip, path, now).1.Limited?
    ensures RateLimit.Check(l', hist, ip, path, now).1.Limited?
  {
    SameMatch(l.guards, l'.guards, path, 0);
  }

  lemma RatedTighter(e: Setup, rt: Runtime, rt': Runtime, w: World, r: Request, now: nat)
    requires FitsWords(e.rates) && SameButLevel(rt, rt') && Level(rt) <= Level(rt')
    requires Rated(e, rt, w, r, now).1.Limited?
    ensures Rated(e, rt', w, r, now).1.Limited?
  {
    Tightened(rt, rt');
    LimitsTighten(e.rates, Scale(rt), Scale(rt'));
    TighterLimits(RateLimit.LimitsAt(e.rates, Scale(rt)), RateLimit.LimitsAt(e.rates, Scale(rt')),
                  w.hist, r.ip, r.path, now);
  }

  lemma WeighedTighter(rt: Runtime, rt': Runtime, reasons: seq<Reason>)
    requires SameButLevel(rt, rt') && Level(rt) <= Level(rt') && Weighed(rt, reasons).action != Allow
    ensures Weighed(rt', reasons).action != Allow
  {
    Tightened(rt, rt');
  }

  lemma TailTighter(e: Setup, rt: Runtime, rt': Runtime, w: World, w': World, r: Request, bot: GoodBot.Verdict,
                    now: nat, ok: bool)
    requires SameButLevel(rt, rt') && Level(rt) <= Level(rt') && w'.tables == w.tables
    requires Tail(e, rt, w, r, bot, now, ok).1.action != Allow
    ensures Tail(e, rt', w', r, bot, now, ok).1.action != Allow
  {
    Tightened(rt, rt');
    if !r.cleared && !Uam(rt).forceChallenge { WeighedTighter(rt, rt', ReasonsAt(rt, w, r, bot, now)); }
  }

  lemma LateTighter(e: Setup, rt: Runtime, rt': Runtime, w: World, r: Request, bot: GoodBot.Verdict,
                       now: nat, ok: bool)
    requires FitsWords(e.rates) && SameButLevel(rt, rt') && Level(rt) <= Level(rt')
    requires Late(e, rt, w, r, bot, now, ok).1.action != Allow
    ensures Late(e, rt', w, r, bot, now, ok).1.action != Allow
  {
    var (w1, w2) := (Rated(e, rt, w, r, now).0, Rated(e, rt', w, r, now).0);
    if Rated(e, rt, w, r, now).1.Limited? {
      RatedTighter(e, rt, rt', w, r, now);
    } else {
      assert w1.tables == w2.tables;
      TailTighter(e, rt, rt', w1, w2, r, bot, now, ok);
    }
  }

  lemma CheckedTighter(e: Setup, rt: Runtime, rt': Runtime, w: World, r: Request, bot: GoodBot.Verdict,
                       now: nat, ok: bool)
    requires FitsWords(e.rates) && SameButLevel(rt, rt') && Level(rt) <= Level(rt')
    requires Checked(e, rt, w, r, bot, now, ok).1.action != Allow
    ensures Checked(e, rt', w, r, bot, now, ok).1.action != Allow
  {
    Tightened(rt, rt');
    if !Trapped(rt, r) && Gate(e, rt', w.conns, r).None? {
      LateTighter(e, rt, rt', w, r, bot, now, ok);
    }
  }

  /** From the same state, a request that is not let through at one effective level is not let
      through at a higher one: not past the clamped connection cap, the tightened rate limits, the
      forced challenge or the lowered thresholds. */
  lemma HigherLevelNeverAllowsMore(e: Setup, rt: Runtime, rt': Runtime, w: World, r: Request, now: nat, ok: bool)
    requires FitsWords(e.rates) && SameButLevel(rt, rt') && Level(rt) <= Level(rt')
    requires Outcome(e, rt, w, r, now, ok).1.action != Allow
    ensures Outcome(e, rt', w, r, now, ok).1.action != Allow
  {
    assert Lists(e, rt', w.bans, r, now) == Lists(e, rt, w.bans, r, now);
    var (w', bot) := Crawler(e, rt, w, r, now);
    assert Crawler(e, rt', w, r, now) == (w', bot);
    if Lists(e, rt, w.bans, r, now).None? && !bot.GoodBotVerified? {
      CheckedTighter(e, rt, rt', w', r, bot, now, ok);
    }
  }

  /** Does a request get past the lists, the crawler check, traps, caps and limits? */
  ghost predicate Reaches(e: Setup, rt: Runtime, w: World, r: Request, now: nat) {
    && Lists(e, rt, w.bans, r, now).None? && !Crawler(e, rt, w, r, now).1.GoodBotVerified?
    && !Trapped(rt, r) && Gate(e, rt, w.conns, r).None?
    && Rated(e, rt, Crawler(e, rt, w, r, now).0, r, now).1.Pass?
  }

  lemma ForcedLate(e: Setup, rt: Runtime, w: World, r: Request, bot: GoodBot.Verdict, now: nat, ok: bool)
    requires Level(rt) >= MEDIUM
    ensures Late(e, rt, w, r, bot, now, ok).1.action == Challenge <==> Rated(e, rt, w, r, now).1.Pass? && !r.cleared
    ensures Late(e, rt, w, r, bot, now, ok).0.tables == w.tables
  {
    assert Uam(rt).forceChallenge;
  }

  lemma ForcedChecked(e: Setup, rt: Runtime, w: World, r: Request, bot: GoodBot.Verdict, now: nat, ok: bool)
    requires Level(rt) >= MEDIUM
    ensures Checked(e, rt, w, r, bot, now, ok).1.action == Challenge
       <==> !Trapped(rt, r) && Gate(e, rt, w.conns, r).None? && Rated(e, rt, w, r, now).1.Pass? && !r.cleared
    ensures Checked(e, rt, w, r, bot, now, ok).0.tables == w.tables
  {
    if !Trapped(rt, r) && Gate(e, rt, w.conns, r).None? { ForcedLate(e, rt, w, r, bot, now, ok); }
  }

  /** At a level that forces challenges, a request is challenged exactly when nothing before decides
      it and it carries no clearance; its score is never looked at, and no tracker sees it. */
  lemma ForcedChallenges(e: Setup, rt: Runtime, w: World, r: Request, now: nat, ok: bool)
    requires Level(rt) >= MEDIUM
    ensures Outcome(e, rt, w, r, now, ok).1.action == Challenge <==> Reaches(e, rt, w, r, now) && !r.cleared
    ensures Outcome(e, rt, w, r, now, ok).0.tables == w.tables
  {
    EarlyStages(e, rt, w, r, now);
    var (w', bot) := Crawler(e, rt, w, r, now);
    ForcedChecked(e, rt, w', r, bot, now, ok);
  }

  // ---- What is not monotone ----

  const SQLI_ONLY := Switches(false, false, false, false, false, false, false,
                             Trackers.Asked(false, false, false, false), false, true, false, false, false, false)

  const SAMPLE := Setup(Reputation.Config(iset{}, iset{}, 5, 60, 900), HardLimits(100, 100, 100, 100),
                        RateLimit.Config(false, 600, 0, []), [])

  const CALM := Started(map[])

  function SampleRuntime(uam: nat, underAttack: bool): Runtime {
    Runtime(uam, underAttack, 2_000, iset{}, iset{}, 0, 70, 40, 0, Subnet.Caps(0, 0), SQLI_ONLY)
  }

  function SampleRequest(rule: Option<string>): Request {
    Request(V4(192, 0, 2, 1), "/", "curl", 1, 1, 1, 0, 0, false, false, None, true, 1, [1, 1, 1], None, false, false,
            [], [], [], false, false, rule, None, None, None, None)
  }

  lemma SampleReasons(rule: string, a: Trackers.Answers)
    requires a == Trackers.Answers([], [], [], [])
    ensures Reasons(SQLI_ONLY, SampleRequest(Some(rule)), GoodBot.NotABot, a) == [Reason(rule, 80)]
    ensures Reasons(SQLI_ONLY, SampleRequest(None), GoodBot.NotABot, a) == []
    ensures Total([Reason(rule, 80)]) == 80
  {
    var one := [Reason(rule, 80)];
    assert one[..0] == [];
  }

  /** The sample requests pass every check before the score at every level. */
  lemma SampleReaches(uam: nat, underAttack: bool, rule: Option<string>)
    ensures Reaches(SAMPLE, SampleRuntime(uam, underAttack), CALM, SampleRequest(rule), 1)
    ensures Crawler(SAMPLE, SampleRuntime(uam, underAttack), CALM, SampleRequest(rule), 1) == (CALM, GoodBot.NotABot)
  {
  }

  /** Below the forcing levels they are judged by their score. */
  lemma SampleWeighed(uam: nat, underAttack: bool, rule: Option<string>)
    requires Level(SampleRuntime(uam, underAttack)) == 1
    ensures Outcome(SAMPLE, SampleRuntime(uam, underAttack), CALM, SampleRequest(rule), 1, true).1
         == Weighed(SampleRuntime(uam, underAttack), if rule.Some? then [Reason(rule.value, 80)] else [])
  {
    var (rt, r) := (SampleRuntime(uam, underAttack), SampleRequest(rule));
    SampleReaches(uam, underAttack, rule);
    assert Asked(rt, CALM, r, 1).1 == Trackers.Answers([], [], [], []);
    SampleReasons(if rule.Some? then rule.value else "", Asked(rt, CALM, r, 1).1);
  }

  /** Severity is not monotone: an injection blocked on its score at Low is merely challenged at
      Medium, where the challenge is forced before anything is scored. */
  lemma SeverityNotMonotone()
    ensures exists e, rt, rt', w, r, now ::
      && SameButLevel(rt, rt') && Level(rt) < Level(rt')
      && Outcome(e, rt, w, r, now, true).1.action == Block
      && Outcome(e, rt', w, r, now, true).1.action == Challenge
  {
    var rt, rt', r := SampleRuntime(1, false), SampleRuntime(2, false), SampleRequest(Some("SQLI"));
    SampleWeighed(1, false, Some("SQLI"));
    SampleReasons("SQLI", Trackers.Answers([], [], [], []));
    SampleReaches(2, false, Some("SQLI"));
    ForcedChallenges(SAMPLE, rt', CALM, r, 1, true);
    assert SameButLevel(rt, rt') && Level(rt) < Level(rt')
      && Outcome(SAMPLE, rt, CALM, r, 1, true).1.action == Block
      && Outcome(SAMPLE, rt', CALM, r, 1, true).1.action == Challenge;
  }

  function Rank(a: Action): nat {
    match a
    case Allow => 0
    case Challenge => 1
    case Block => 2
    case Tarpit => 3
  }

  /** The request is blocked or tarpitted on its score. */
  ghost predicate ScoreBlocks(e: Setup, rt: Runtime, w: World, r: Request, now: nat) {
    && Reaches(e, rt, w, r, now) && !r.cleared && !Uam(rt).forceChallenge
    && OverBlock(rt, ReasonsAt(rt, w, r, Crawler(e, rt, w, r, now).1, now))
  }

  /** What becomes of a request that gets so far, by its reasons. */
  function StageAction(rt: Runtime, reaches: bool, cleared: bool, reasons: seq<Reason>): Action {
    if !reaches then Block
    else if cleared then Allow
    else if Uam(rt).forceChallenge then Challenge
    else Weighed(rt, reasons).action
  }

  /** The answer to a request that no list and no verified crawler settles, stage by stage. */
  lemma Stages(e: Setup, rt: Runtime, w: World, r: Request, now: nat, ok: bool)
    requires Lists(e, rt, w.bans, r, now).None? && !Crawler(e, rt, w, r, now).1.GoodBotVerified?
    ensures Outcome(e, rt, w, r, now, ok).1.action
         == StageAction(rt, Reaches(e, rt, w, r, now), r.cleared,
                        ReasonsAt(rt, w, r, Crawler(e, rt, w, r, now).1, now))
  {
    HardLimitsExact(e.limits, r);
    EarlyStages(e, rt, w, r, now);
  }

  /** A request that reaches the score at the higher level reached it at the lower one. */
  lemma ReachesLower(e: Setup, rt: Runtime, rt': Runtime, w: World, r: Request, now: nat)
    requires FitsWords(e.rates) && SameButLevel(rt, rt') && Level(rt) <= Level(rt')
    requires Reaches(e, rt', w, r, now)
    ensures Reaches(e, rt, w, r, now)
  {
    Tightened(rt, rt');
    var w' := Crawler(e, rt, w, r, now).0;
    if Rated(e, rt, w', r, now).1.Limited? { RatedTighter(e, rt, rt', w', r, now); }
  }

  lemma WeighedRank(rt: Runtime, rt': Runtime, reasons: seq<Reason>)
    requires SameButLevel(rt, rt') && Level(rt) <= Level(rt')
    ensures Rank(Weighed(rt, reasons).action) <= Rank(Weighed(rt', reasons).action)
    ensures Rank(Weighed(rt, reasons).action) >= 2 <==> OverBlock(rt, reasons)
  {
    Tightened(rt, rt');
  }

  /** Exactly when the answer gets milder as the level rises: the request is blocked on its score at
      the lower level, and at the higher one either it still gets as far and a challenge is forced
      on it, or a tighter cap or limit refuses it with 429 while its score is one to be tarpitted. */
  lemma SeverityFalls(e: Setup, rt: Runtime, rt': Runtime, w: World, r: Request, now: nat, ok: bool)
    requires FitsWords(e.rates) && SameButLevel(rt, rt') && Level(rt) <= Level(rt')
    ensures Rank(Outcome(e, rt', w, r, now, ok).1.action) < Rank(Outcome(e, rt, w, r, now, ok).1.action)
       <==> && ScoreBlocks(e, rt, w, r, now)
            && (if Reaches(e, rt', w, r, now) then Uam(rt').forceChallenge
                else OverTarpit(rt, ReasonsAt(rt, w, r, Crawler(e, rt, w, r, now).1, now)))
  {
    assert Lists(e, rt', w.bans, r, now) == Lists(e, rt, w.bans, r, now);
    assert Crawler(e, rt', w, r, now) == Crawler(e, rt, w, r, now);
    if Lists(e, rt, w.bans, r, now).None? && !Crawler(e, rt, w, r, now).1.GoodBotVerified? {
      SeverityStaged(e, rt, rt', w, r, now, ok);
    }
  }

  lemma SeverityStaged(e: Setup, rt: Runtime, rt': Runtime, w: World, r: Request, now: nat, ok: bool)
    requires FitsWords(e.rates) && SameButLevel(rt, rt') && Level(rt) <= Level(rt')
    requires Lists(e, rt, w.bans, r, now).None? && !Crawler(e, rt, w, r, now).1.GoodBotVerified?
    ensures Rank(Outcome(e, rt', w, r, now, ok).1.action) < Rank(Outcome(e, rt, w, r, now, ok).1.action)
       <==> && ScoreBlocks(e, rt, w, r, now)
            && (if Reaches(e, rt', w, r, now) then Uam(rt').forceChallenge
                else OverTarpit(rt, ReasonsAt(rt, w, r, Crawler(e, rt, w, r, now).1, now)))
  {
    var reasons := ReasonsAt(rt, w, r, Crawler(e, rt, w, r, now).1, now);
    Stages(e, rt, w, r, now, ok);
    Stages(e, rt', w, r, now, ok);
    if Reaches(e, rt', w, r, now) { ReachesLower(e, rt, rt', w, r, now); }
    Staged(rt, rt', Reaches(e, rt, w, r, now), Reaches(e, rt', w, r, now), r.cleared, reasons);
  }

  lemma Staged(rt: Runtime, rt': Runtime, reaches: bool, reaches': bool, cleared: bool, reasons: seq<Reason>)
    requires SameButLevel(rt, rt') && Level(rt) <= Level(rt') && (reaches' ==> reaches)
    ensures var (a, a') := (StageAction(rt, reaches, cleared, reasons), StageAction(rt', reaches', cleared, reasons));
      Rank(a') < Rank(a)
      <==> && reaches && !cleared && !Uam(rt).forceChallenge && OverBlock(rt, reasons)
           && (if reaches' then Uam(rt').forceChallenge else OverTarpit(rt, reasons))
  {
    Tightened(rt, rt');
    WeighedRank(rt, rt', reasons);
  }

  /** The second way: an injection tarpitted at Low is refused with 429 at High, where the clamp on the
      connections of one address turns it away before it is scored. */
  lemma TarpitFallsToBlock()
    ensures exists e, rt, rt', w, r, now ::
      && SameButLevel(rt, rt') && Level(rt) < Level(rt')
      && Outcome(e, rt, w, r, now, true).1.action == Tarpit
      && Outcome(e, rt', w, r, now, true).1 == Blocked(429, Reason("CONN-CAP", 100))
  {
    var rt, rt', r := CrowdedRuntime(1), CrowdedRuntime(3), SampleRequest(Some("SQLI"));
    CrowdedTarpits();
    assert SameButLevel(rt, rt') && Level(rt) < Level(rt')
      && Outcome(SAMPLE, rt, Crowded(), r, 1, true).1.action == Tarpit
      && Outcome(SAMPLE, rt', Crowded(), r, 1, true).1 == Blocked(429, Reason("CONN-CAP", 100));
  }

  function CrowdedRuntime(uam: nat): Runtime {
    SampleRuntime(uam, false).(maxPerIp := 100, tarpitScore := 80)
  }

  /** The address of the sample requests has sixty of them in flight. */
  function Crowded(): World {
    CALM.(conns := map[V4(192, 0, 2, 1) := 60])
  }

  lemma CrowdedTarpits()
    ensures Outcome(SAMPLE, CrowdedRuntime(1), Crowded(), SampleRequest(Some("SQLI")), 1, true).1.action == Tarpit
  {
    var (rt, w, r) := (CrowdedRuntime(1), Crowded(), SampleRequest(Some("SQLI")));
    assert Reaches(SAMPLE, rt, w, r, 1);
    assert Asked(rt, w, r, 1).1 == Trackers.Answers([], [], [], []);
    SampleReasons("SQLI", Asked(rt, w, r, 1).1);
  }

  /** Nor is the stored level the one to compare: with the older flag set, Off acts as Medium and
      Low as Low, so a plain request challenged at Off is let through at Low. */
  lemma StoredLevelMisleads()
    ensures exists e: Setup, rt, rt', w, r, now ::
      && FitsWords(e.rates) && SameButLevel(rt, rt') && rt.uam < rt'.uam && rt.underAttack == rt'.underAttack
      && Outcome(e, rt, w, r, now, true).1.action == Challenge
      && Outcome(e, rt', w, r, now, true).1.action == Allow
  {
    OffBeatsLow();
    var rt, rt' := SampleRuntime(0, true), SampleRuntime(1, true);
    assert FitsWords(SAMPLE.rates) && SameButLevel(rt, rt') && rt.uam < rt'.uam && rt.underAttack == rt'.underAttack
      && Outcome(SAMPLE, rt, CALM, SampleRequest(None), 1, true).1.action == Challenge
      && Outcome(SAMPLE, rt', CALM, SampleRequest(None), 1, true).1.action == Allow;
  }

  lemma OffBeatsLow()
    ensures Outcome(SAMPLE, SampleRuntime(0, true), CALM, SampleRequest(None), 1, true).1.action == Challenge
    ensures Outcome(SAMPLE, SampleRuntime(1, true), CALM, SampleRequest(None), 1, true).1.action == Allow
  {
    SampleReaches(0, true, None);
    ForcedChallenges(SAMPLE, SampleRuntime(0, true), CALM, SampleRequest(None), 1, true);
    SampleWeighed(1, true, None);
  }

  /** Stored levels compare as the levels in force do, except for Off against Low under the older flag. */
  lemma StoredOrder(rt: Runtime, rt': Runtime)
    requires rt.underAttack == rt'.underAttack && rt.uam <= rt'.uam <= EXTREME
    ensures Level(rt) <= Level(rt') <==> !(rt.underAttack && rt.uam == OFF && rt'.uam == 1)
  {
  }

  /** With the older flag as given, no request refused or challenged at stored level u is let through
      at stored level u', everything else being equal. */
  ghost predicate StoredMonotone(flag: bool, u: nat, u': nat) {
    forall e: Setup, rt: Runtime, w: World, r: Request, now: nat, ok: bool |
        && FitsWords(e.rates) && rt.underAttack == flag && rt.uam == u
        && Outcome(e, rt, w, r, now, ok).1.action != Allow
      :: Outcome(e, rt.(uam := u'), w, r, now, ok).1.action != Allow
  }

  /** Which is so for every pair of stored levels in order but that one. */
  lemma StoredMonotoneExactly(flag: bool, u: nat, u': nat)
    requires u <= u' <= EXTREME
    ensures StoredMonotone(flag, u, u') <==> !(flag && u == OFF && u' == 1)
  {
    if flag && u == OFF && u' == 1 {
      OffBeatsLow();
      var rt := SampleRuntime(0, true);
      assert rt.(uam := 1) == SampleRuntime(1, true);
      assert FitsWords(SAMPLE.rates) && Outcome(SAMPLE, rt, CALM, SampleRequest(None), 1, true).1.action != Allow;
    } else {
      forall e: Setup, rt: Runtime, w: World, r: Request, now: nat, ok: bool |
          && FitsWords(e.rates) && rt.underAttack == flag && rt.uam == u
          && Outcome(e, rt, w, r, now, ok).1.action != Allow
        ensures Outcome(e, rt.(uam := u'), w, r, now, ok).1.action != Allow
      {
        StoredOrder(rt, rt.(uam := u'));
        HigherLevelNeverAllowsMore(e, rt, rt.(uam := u'), w, r, now, ok);
      }
    }
  }

  // ---- Bans over whole runs ----

  /** The entry a request adds to the ban table, if any: a trap springs a ban, a block on the score
      is an offence, and nothing else is held against an address. */
  ghost function Charge(e: Setup, rt: Runtime, w: World, r: Request, now: nat, ok: bool): Option<Bans.Op> {
    var (w', bot) := Crawler(e, rt, w, r, now);
    if Lists(e, rt, w.bans, r, now).Some? || bot.GoodBotVerified? then None
    else if Trapped(rt, r) then Some(Bans.BanFor(r.ip, e.reputation.duration, now, ok))
    else if !Reaches(e, rt, w, r, now) || r.cleared || Uam(rt).forceChallenge
            || !OverBlock(rt, ReasonsAt(rt, w, r, bot, now)) then None
    else Some(Bans.Offend(r.ip, now, ok))
  }

  /** The crawler check and the rate limits leave the bans and the trackers alone. */
  lemma EarlyStages(e: Setup, rt: Runtime, w: World, r: Request, now: nat)
    ensures var w1 := Crawler(e, rt, w, r, now).0;
            var w2 := Rated(e, rt, w1, r, now).0;
      w1.bans == w2.bans == w.bans && w1.tables == w2.tables == w.tables && w1.conns == w.conns
  {
  }

  lemma EvaluateCharges(e: Setup, rt: Runtime, w: World, r: Request, now: nat, ok: bool)
    ensures Outcome(e, rt, w, r, now, ok).0.bans
         == match Charge(e, rt, w, r, now, ok)
            case Some(op) => Bans.Apply(e.reputation, w.bans, op)
            case None => w.bans
    ensures Charge(e, rt, w, r, now, ok).Some? ==> Outcome(e, rt, w, r, now, ok).1.action in {Block, Tarpit}
  {
    EarlyStages(e, rt, w, r, now);
    var (w', bot) := Crawler(e, rt, w, r, now);
    if Reaches(e, rt, w, r, now) { LateCharges(e, rt, w', r, bot, now, ok); }
  }

  /** Past the limits, a request is charged with an offence exactly when it is scored and blocks. */
  lemma LateCharges(e: Setup, rt: Runtime, w: World, r: Request, bot: GoodBot.Verdict, now: nat, ok: bool)
    requires Rated(e, rt, w, r, now).1.Pass?
    ensures var (w', d) := Late(e, rt, w, r, bot, now, ok);
            var charged := !r.cleared && !Uam(rt).forceChallenge && OverBlock(rt, ReasonsAt(rt, w, r, bot, now));
      && w'.bans == (if charged then Bans.Apply(e.reputation, w.bans, Bans.Offend(r.ip, now, ok)) else w.bans)
      && (charged ==> d.action in {Block, Tarpit})
  {
  }

  /** A request is served; the ban table is managed; or anything but the ban table changes, in any
      way - connections come and go, lookups finish, other tables are swept. */
  datatype Act = Serve(rt: Runtime, r: Request, t: nat, ok: bool) | Manage(op: Bans.Op) | Elsewhere(rest: World)

  ghost function Perform(e: Setup, w: World, a: Act): World {
    match a
    case Serve(rt, r, t, ok) => Outcome(e, rt, w, r, t, ok).0
    case Manage(op) => w.(bans := Bans.Apply(e.reputation, w.bans, op))
    case Elsewhere(rest) => rest.(bans := w.bans)
  }

  ghost function After(e: Setup, w: World, acts: seq<Act>): World {
    if acts == [] then w else Perform(e, After(e, w, acts[..|acts| - 1]), acts[|acts| - 1])
  }

  predicate Spares(a: Act, ip: IpAddr, u: nat, durable: bool) {
    match a
    case Serve(_, _, t, _) => t < u
    case Manage(op) => Bans.Spares(op, ip, u, durable)
    case Elsewhere(_) => true
  }

  lemma ServeHeld(e: Setup, rt: Runtime, w: World, r: Request, t: nat, ok: bool, ip: IpAddr, u: nat, durable: bool)
    requires Bans.Held(w.bans, ip, u, durable) && t < u
    ensures Bans.Held(Outcome(e, rt, w, r, t, ok).0.bans, ip, u, durable)
  {
    EvaluateCharges(e, rt, w, r, t, ok);
    var c := Charge(e, rt, w, r, t, ok);
    if c.Some? { Bans.ApplyHeld(e.reputation, w.bans, c.value, ip, u, durable); }
  }

  lemma {:induction false} RunHeld(e: Setup, w: World, acts: seq<Act>, ip: IpAddr, u: nat, durable: bool)
    requires Bans.Held(w.bans, ip, u, durable)
    requires forall i | 0 <= i < |acts| :: Spares(acts[i], ip, u, durable)
    ensures Bans.Held(After(e, w, acts).bans, ip, u, durable)
  {
    if acts != [] {
      var (before, a) := (After(e, w, acts[..|acts| - 1]), acts[|acts| - 1]);
      RunHeld(e, w, acts[..|acts| - 1], ip, u, durable);
      match a
      case Serve(rt, r, t, ok) => ServeHeld(e, rt, before, r, t, ok, ip, u, durable);
      case Manage(op) => Bans.ApplyHeld(e.reputation, before.bans, op, ip, u, durable);
      case Elsewhere(_) =>
    }
  }

  lemma BannedIsRefused(e: Setup, rt: Runtime, w: World, r: Request, now: nat, ok: bool, u: nat, durable: bool)
    requires Bans.Held(w.bans, r.ip, u, durable) && now < u
    requires r.ip !in e.reputation.allow && r.ip !in rt.allow
    ensures Outcome(e, rt, w, r, now, ok) == (w, Blocked(403, Reason("REP-DENY", 100)))
  {
    assert Bans.Classify(e.reputation, w.bans, r.ip, now) == Reputation.Deny;
  }

  /** Does serving the request put a ban on its address? */
  ghost predicate Convicts(e: Setup, rt: Runtime, w: World, r: Request, t: nat, ok: bool) {
    match Charge(e, rt, w, r, t, ok)
    case Some(op) => op.BanFor? || Reputation.NewlyBans(e.reputation, Bans.Entry(w.bans, r.ip), t)
    case None => false
  }

  lemma BanBegins(e: Setup, rt: Runtime, w: World, r: Request, t: nat, ok: bool)
    requires e.reputation.duration >= 1 && r.ip !in e.reputation.allow && Convicts(e, rt, w, r, t, ok)
    ensures Bans.Held(Outcome(e, rt, w, r, t, ok).0.bans, r.ip, t + e.reputation.duration, w.bans.bound && ok)
  {
    EvaluateCharges(e, rt, w, r, t, ok);
    Bans.BanIsHeld(e.reputation, w.bans, Charge(e, rt, w, r, t, ok).value);
  }

  /** Once a request has sprung a trap, or committed the offence that bans, every later request of
      its address is refused with 403 for the length of the ban: whatever requests of whatever
      addresses come between under whatever settings, whatever is swept, written, pardoned for
      others or restarted. */
  lemma BanIsLasting(e: Setup, rt: Runtime, w: World, r: Request, t: nat, ok: bool,
                     acts: seq<Act>, rt': Runtime, r': Request, now: nat, ok': bool)
    requires e.reputation.duration >= 1 && r'.ip == r.ip && now < t + e.reputation.duration
    requires r.ip !in e.reputation.allow && r.ip !in rt'.allow
    requires Convicts(e, rt, w, r, t, ok)
    requires forall i | 0 <= i < |acts| :: Spares(acts[i], r.ip, t + e.reputation.duration, w.bans.bound && ok)
    ensures Outcome(e, rt', After(e, Outcome(e, rt, w, r, t, ok).0, acts), r', now, ok').1
         == Blocked(403, Reason("REP-DENY", 100))
  {
    var (u, durable) := (t + e.reputation.duration, w.bans.bound && ok);
    var w' := Outcome(e, rt, w, r, t, ok).0;
    BanBegins(e, rt, w, r, t, ok);
    RunHeld(e, w', acts, r.ip, u, durable);
    BannedIsRefused(e, rt', After(e, w', acts), r', now, ok', u, durable);
  }

  /** Nobody but the engine itself charges the address. */
  predicate Uncharged(a: Act, ip: IpAddr) {
    a.Manage? && (a.op.Offend? || a.op.BanFor?) ==> a.op.ip != ip
  }

  /** While it is banned an address is not charged anew: its requests are turned away before that. */
  lemma ServeEnds(e: Setup, rt: Runtime, w: World, r: Request, t: nat, ok: bool, ip: IpAddr, u: nat, durable: bool)
    requires Bans.Held(w.bans, ip, u, durable) && t < u && Bans.Ends(w.bans, ip, u) && ip !in e.reputation.allow
    ensures Bans.Ends(Outcome(e, rt, w, r, t, ok).0.bans, ip, u)
  {
    EvaluateCharges(e, rt, w, r, t, ok);
    var c := Charge(e, rt, w, r, t, ok);
    if c.Some? {
      assert r.ip != ip;
      Bans.ApplyEnds(e.reputation, w.bans, c.value, ip, u);
    }
  }

  lemma {:induction false} RunEnds(e: Setup, w: World, acts: seq<Act>, ip: IpAddr, u: nat, durable: bool)
    requires Bans.Held(w.bans, ip, u, durable) && Bans.Ends(w.bans, ip, u) && ip !in e.reputation.allow
    requires forall i | 0 <= i < |acts| :: Spares(acts[i], ip, u, durable) && Uncharged(acts[i], ip)
    ensures Bans.Ends(After(e, w, acts).bans, ip, u)
  {
    if acts != [] {
      var (most, a) := (acts[..|acts| - 1], acts[|acts| - 1]);
      var before := After(e, w, most);
      RunEnds(e, w, most, ip, u, durable);
      RunHeld(e, w, most, ip, u, durable);
      assert Spares(a, ip, u, durable) && Uncharged(a, ip);
      match a
      case Serve(rt, r, t, ok) => ServeEnds(e, rt, before, r, t, ok, ip, u, durable);
      case Manage(op) => Bans.ApplyEnds(e.reputation, before.bans, op, ip, u);
      case Elsewhere(_) =>
    }
  }

  lemma BanHasEnd(e: Setup, rt: Runtime, w: World, r: Request, t: nat, ok: bool)
    requires r.ip !in e.reputation.allow && Convicts(e, rt, w, r, t, ok)
    requires (w.bans.bound && ok) || (r.ip in w.bans.disk ==> w.bans.disk[r.ip].banUntil <= t + e.reputation.duration)
    ensures Bans.Ends(Outcome(e, rt, w, r, t, ok).0.bans, r.ip, t + e.reputation.duration)
  {
    var (op, u) := (Charge(e, rt, w, r, t, ok).value, t + e.reputation.duration);
    EvaluateCharges(e, rt, w, r, t, ok);
    assert Bans.Entry(w.bans, r.ip).banUntil <= t;
    if w.bans.bound && ok {
      Bans.WrittenBanHasEnd(e.reputation, w.bans, op, u);
    } else {
      Bans.BanHasEnd(e.reputation, w.bans, op, u);
    }
  }

  /** And no longer: the address is turned away as banned exactly until the time of the ban is up. */
  lemma BanIsExact(e: Setup, rt: Runtime, w: World, r: Request, t: nat, ok: bool,
                   acts: seq<Act>, rt': Runtime, r': Request, now: nat)
    requires e.reputation.duration >= 1 && r'.ip == r.ip && r.ip !in e.reputation.deny
    requires r.ip !in e.reputation.allow && r.ip !in rt'.allow
    requires Convicts(e, rt, w, r, t, ok)
    requires (w.bans.bound && ok) || (r.ip in w.bans.disk ==> w.bans.disk[r.ip].banUntil <= t + e.reputation.duration)
    requires forall i | 0 <= i < |acts| ::
      Spares(acts[i], r.ip, t + e.reputation.duration, w.bans.bound && ok) && Uncharged(acts[i], r.ip)
    ensures var w' := After(e, Outcome(e, rt, w, r, t, ok).0, acts);
      Lists(e, rt', w'.bans, r', now) == Some(Blocked(403, Reason("REP-DENY", 100)))
      <==> now < t + e.reputation.duration
  {
    var (w1, u, durable) := (Outcome(e, rt, w, r, t, ok).0, t + e.reputation.duration, w.bans.bound && ok);
    BanBegins(e, rt, w, r, t, ok);
    BanHasEnd(e, rt, w, r, t, ok);
    RunHeld(e, w1, acts, r.ip, u, durable);
    RunEnds(e, w1, acts, r.ip, u, durable);
  }

  // ---- The running engine ----

  class Engine {
    const setup: Setup
    const reputations: Bans.Reputations
    const limiter: RateLimit.RateLimiter
    const conns: InFlight<IpAddr>
    const goodbot: GoodBot.GoodBotVerifier
    const panel: Trackers.Panel
    /** The lookups handed to the runtime so far. */
    var lookups: seq<GoodBot.Lookup>

    ghost function Counters(): set<object>
      reads limiter.table
    {
      limiter.table.Repr
    }

    ghost predicate Valid()
      reads this, limiter, limiter.table, limiter.table.Repr
      reads panel.behavior, panel.subnets, panel.subnets.counters, panel.subnets.counters.Repr
    {
      && limiter.Valid() && limiter.cfg == setup.rates && reputations.cfg == setup.reputation
      && goodbot.bots == setup.bots && panel.Valid()
      && Counters() !! panel.Footprint()
      && this !in Counters() && reputations !in Counters() && conns !in Counters() && goodbot !in Counters()
      && this !in panel.Footprint() && reputations !in panel.Footprint() && conns !in panel.Footprint()
      && goodbot !in panel.Footprint()
    }

    ghost function Snapshot(): World
      reads this, reputations, limiter.table, conns, goodbot
      reads panel.behavior, panel.subnets, panel.subnets.counters, panel.subnets.inFlight, panel.replay, panel.distUa
    {
      World(reputations.Snapshot(), limiter.table.hist, conns.inner, panel.Snapshot(), goodbot.cache, lookups)
    }

    /** No clock has passed `now`, and every counter of the address has room in its 32 bits. */
    ghost predicate Ready(ip: IpAddr, now: nat)
      reads limiter.table, panel.subnets.counters
    {
      limiter.table.clock <= now && limiter.Roomy(ip, now) && panel.Ready(ip, now)
    }

    /** `limiter` and `panel` come fresh from `Build`. */
    constructor (setup: Setup, disk: map<IpAddr, Bans.Saved>, limiter: RateLimit.RateLimiter, panel: Trackers.Panel)
      requires limiter.Valid() && limiter.cfg == setup.rates && panel.Valid()
      requires limiter.table.Repr !! panel.Footprint()
      ensures Valid() && this.setup == setup && this.limiter == limiter && this.panel == panel
      ensures Snapshot() == Started(disk).(hist := limiter.table.hist, tables := panel.Snapshot())
    {
      this.setup, this.limiter, this.panel := setup, limiter, panel;
      reputations := new Bans.Reputations(setup.reputation, disk);
      conns := new InFlight();
      goodbot := new GoodBot.GoodBotVerifier(setup.bots);
      lookups := [];
    }

    static method Build(setup: Setup, disk: map<IpAddr, Bans.Saved>) returns (e: Engine)
      ensures e.Valid() && e.setup == setup && e.Snapshot() == Started(disk)
    {
      var limiter := new RateLimit.RateLimiter(setup.rates);
      var panel := new Trackers.Panel();
      e := new Engine(setup, disk, limiter, panel);
    }

    method CheckLists(rt: Runtime, r: Request, now: nat) returns (d: Option<Decision>)
      requires reputations.cfg == setup.reputation
      ensures d == Lists(setup, rt, reputations.Snapshot(), r, now)
    {
      if r.ip in rt.allow { return Some(Allowed()); }
      var standing := reputations.Standing(r.ip, now);
      match standing {
        case Allow => return Some(Allowed());
        case Deny => return Some(Blocked(403, Reason("REP-DENY", 100)));
        case Unknown =>
      }
      d := if r.ip in rt.deny then Some(Blocked(403, Reason("REP-DENY-RT", 100))) else None;
    }

    method CheckCrawler(rt: Runtime, r: Request, now: nat) returns (v: GoodBot.Verdict)
      requires Valid()
      modifies this`lookups, goodbot
      ensures Valid()
      ensures (Snapshot(), v) == Crawler(setup, rt, old(Snapshot()), r, now)
    {
      if !rt.on.goodbot { return GoodBot.NotABot; }
      var spawn;
      v, spawn := goodbot.Classify(r.ip, r.ua, now);
      if spawn.Some? { lookups := lookups + [GoodBot.Lookup(r.ip, spawn.value)]; }
    }

    method CheckConns(rt: Runtime, r: Request) returns (over: bool)
      ensures over <==> OverCap(rt, conns.inner, r)
    {
      var inFlight := conns.Current(r.ip);
      var uam := Uam(rt);
      var cap := if uam.clamp > 0 then Min(rt.maxPerIp, uam.clamp) else rt.maxPerIp;
      over := cap > 0 && inFlight > cap;
    }

    method SpringTrap(r: Request, now: nat, ok: bool)
      requires Valid()
      modifies reputations
      ensures Valid()
      ensures var w := old(Snapshot());
        Snapshot()
        == w.(bans := Bans.Apply(setup.reputation, w.bans, Bans.BanFor(r.ip, setup.reputation.duration, now, ok)))
    {
      var _ := reputations.ForceBan(r.ip, setup.reputation.duration, now, ok);
    }

    method HardLimits(r: Request) returns (d: Option<Decision>)
      ensures d == HardLimit(setup.limits, r)
    {
      var l := setup.limits;
      if !r.methodAllowed { return Some(Blocked(405, Reason("METHOD-DENIED", 100))); }
      if r.uriLen > l.maxUri { return Some(Blocked(414, Reason("URI-TOO-LONG", 100))); }
      if |r.headerLens| > l.maxHeaders { return Some(Blocked(431, Reason("TOO-MANY-HEADERS", 100))); }
      var i := 0;
      while i < |r.headerLens|
        invariant i <= |r.headerLens| && forall j | 0 <= j < i :: r.headerLens[j] <= l.maxHeaderValue
      {
        if r.headerLens[i] > l.maxHeaderValue { return Some(Blocked(431, Reason("HEADER-TOO-LONG", 100))); }
        i := i + 1;
      }
      if r.contentLength.Some? && r.contentLength.value > l.maxBody {
        return Some(Blocked(413, Reason("BODY-TOO-LARGE", 100)));
      }
      d := None;
    }

    method CheckGate(rt: Runtime, r: Request) returns (d: Option<Decision>)
      ensures d == Gate(setup, rt, conns.inner, r)
    {
      var over := CheckConns(rt, r);
      if over { return Some(Blocked(429, Reason("CONN-CAP", 100))); }
      d := HardLimits(r);
    }

    method CheckRate(rt: Runtime, r: Request, now: nat) returns (v: RateLimit.Verdict)
      requires Valid() && Ready(r.ip, now)
      modifies Counters()
      ensures Valid() && fresh(Counters() - old(Counters())) && limiter.table.clock <= now && panel.Ready(r.ip, now)
      ensures (Snapshot(), v) == Rated(setup, rt, old(Snapshot()), r, now)
    {
      if !rt.on.rateLimit { return RateLimit.Pass; }
      var uam := Uam(rt);
      var scale := if uam.rpmScale < FULL_SCALE then uam.rpmScale
                   else if rt.underAttack then rt.rpmUnderAttack else FULL_SCALE;
      v := limiter.CheckScaled(r.ip, r.path, scale, now);
    }

    method CollectOrigin(r: Request, bot: GoodBot.Verdict) returns (d: Decision)
      ensures Sums(d) && d.reasons == OriginReasons(r, bot)
    {
      d := Allowed();
      d := AddAll(d, If(bot.GoodBotSpoofed?, "GOODBOT-SPOOF", 60));
      d := AddAll(d, r.geo);
      d := AddAll(d, HeaderReasons(r));
    }

    method CollectClient(on: Switches, r: Request, bot: GoodBot.Verdict, behavior: seq<Reason>, d0: Decision)
        returns (d: Decision)
      requires Sums(d0) && d0.reasons == OriginReasons(r, bot)
      ensures Sums(d) && d.reasons == ClientReasons(on, r, bot, behavior)
    {
      d := AddAll(d0, When(!bot.GoodBotPending? && !(on.bic && r.bicValid) && on.botScore, r.botReasons));
      d := AddAll(d, behavior);
      d := AddAll(d, When(on.ddos, r.ddosReasons));
      d := AddAll(d, If(on.datacenter && r.inDatacenter, "DC-RANGE", 25));
    }

    method CollectAttack(on: Switches, r: Request, a: Trackers.Answers, d0: Decision) returns (d: Decision)
      requires Sums(d0)
      ensures Sums(d) && d.reasons == AttackReasons(on, r, a, d0.reasons)
    {
      d := AddAll(d0, a.subnet);
      d := AddAll(d, a.replay);
      d := AddAll(d, a.distUa);
      d := AddAll(d, If(on.botUa && r.ua != "" && r.uaSuspicious, "UA-SUSPICIOUS", 60));
      d := AddAll(d, Hit(on.sqli, r.sqliRule, 80));
      d := AddAll(d, Hit(on.xss, r.xssRule, 80));
      d := AddAll(d, Hit(on.traversal, r.traversalRule, 70));
      d := AddAll(d, Hit(on.cmdi, r.cmdiRule, 80));
      d := AddAll(d, Hit(on.lfi, r.lfiRule, 70));
    }

    /** Weigh the collected reasons; record the offence if they block. */
    method Settle(rt: Runtime, ip: IpAddr, scored: Decision, now: nat, ok: bool) returns (d: Decision)
      requires Valid() && scored.score == Score(scored.reasons)
      modifies reputations
      ensures Valid()
      ensures (Snapshot(), d) == Settled(setup, rt, old(Snapshot()), ip, scored.reasons, now, ok)
    {
      var uam := Uam(rt);
      if scored.score >= SatSub(rt.blockThreshold, uam.blockDrop) {
        var primary := if |scored.reasons| > 0 then scored.reasons[0] else Reason("ANOMALY", scored.score);
        var _ := reputations.RecordOffence(ip, now, ok);
        if rt.tarpitScore > 0 && scored.score >= rt.tarpitScore {
          return Tarpitted(scored.score, scored.reasons);
        }
        return Blocked(403, primary);
      }
      if scored.score >= SatSub(rt.challengeThreshold, uam.challengeDrop) {
        return Challenged(scored.score, scored.reasons);
      }
      d := Allowed();
    }

    method AskBehavior(rt: Runtime, r: Request, now: nat) returns (out: seq<Reason>)
      requires Valid()
      modifies panel.behavior
      ensures Valid()
      ensures (panel.behavior.Snapshot(), out)
           == Trackers.AskBehavior(rt.on.trackers.behavior, old(Snapshot()).tables.behavior, ProbeOf(r), now)
      ensures Snapshot() == old(Snapshot()).(tables := old(Snapshot()).tables.(behavior := panel.behavior.Snapshot()))
    {
      out := panel.ShowBehavior(rt.on.trackers.behavior, ProbeOf(r), now);
    }

    method AskFloods(rt: Runtime, r: Request, now: nat) returns (a: Trackers.Answers)
      requires Valid() && limiter.table.clock <= now && panel.Ready(r.ip, now)
      modifies panel.Footprint()
      ensures Valid() && fresh(panel.Footprint() - old(panel.Footprint())) && limiter.table.clock <= now
      ensures (panel.Snapshot(), a)
           == Trackers.RestObserved(rt.on.trackers, old(Snapshot()).tables, ProbeOf(r), rt.caps, now)
      ensures Snapshot() == old(Snapshot()).(tables := panel.Snapshot())
    {
      a := panel.ShowFloods(rt.on.trackers, ProbeOf(r), rt.caps, now);
    }

    /** The two askings together. */
    lemma AskedInTurn(rt: Runtime, w: World, r: Request, now: nat, t1: Behavior.Table, b: seq<Reason>,
                      t2: Trackers.Tables, a: Trackers.Answers)
      requires (t1, b) == Trackers.AskBehavior(rt.on.trackers.behavior, w.tables.behavior, ProbeOf(r), now)
      requires (t2, a)
            == Trackers.RestObserved(rt.on.trackers, w.tables.(behavior := t1), ProbeOf(r), rt.caps, now)
      ensures Asked(rt, w, r, now) == (t2, a.(behavior := b))
    {
    }

    /** Collect the reasons source by source, each tracker asked in its turn, adding up the score. */
    method CollectOwn(rt: Runtime, r: Request, bot: GoodBot.Verdict, now: nat)
        returns (d: Decision, behavior: seq<Reason>)
      requires Valid()
      modifies panel.behavior
      ensures Valid() && Sums(d) && d.reasons == ClientReasons(rt.on, r, bot, behavior)
      ensures (panel.behavior.Snapshot(), behavior)
           == Trackers.AskBehavior(rt.on.trackers.behavior, old(Snapshot()).tables.behavior, ProbeOf(r), now)
      ensures Snapshot() == old(Snapshot()).(tables := old(Snapshot()).tables.(behavior := panel.behavior.Snapshot()))
    {
      d := CollectOrigin(r, bot);
      behavior := AskBehavior(rt, r, now);
      d := CollectClient(rt.on, r, bot, behavior, d);
    }

    /** `w` is the world before the tracker of behaviour was asked. */
    method CollectFloods(rt: Runtime, r: Request, bot: GoodBot.Verdict, now: nat, own: Decision,
                         behavior: seq<Reason>, ghost w: World) returns (d: Decision)
      requires Valid() && limiter.table.clock <= now && panel.Ready(r.ip, now)
      requires Sums(own) && own.reasons == ClientReasons(rt.on, r, bot, behavior)
      requires (panel.behavior.Snapshot(), behavior)
            == Trackers.AskBehavior(rt.on.trackers.behavior, w.tables.behavior, ProbeOf(r), now)
      requires Snapshot() == w.(tables := w.tables.(behavior := panel.behavior.Snapshot()))
      modifies panel.Footprint()
      ensures Valid() && fresh(panel.Footprint() - old(panel.Footprint())) && limiter.table.clock <= now
      ensures d.reasons == ReasonsAt(rt, w, r, bot, now) && d.score == Score(d.reasons)
      ensures Snapshot() == w.(tables := Asked(rt, w, r, now).0)
    {
      ghost var table := panel.behavior.Snapshot();
      var a := AskFloods(rt, r, now);
      AskedInTurn(rt, w, r, now, table, behavior, panel.Snapshot(), a);
      d := CollectAttack(rt.on, r, a.(behavior := behavior), own);
    }

    method Collect(rt: Runtime, r: Request, bot: GoodBot.Verdict, now: nat) returns (d: Decision)
      requires Valid() && limiter.table.clock <= now && panel.Ready(r.ip, now)
      modifies panel.Footprint()
      ensures Valid() && fresh(panel.Footprint() - old(panel.Footprint())) && limiter.table.clock <= now
      ensures d.reasons == ReasonsAt(rt, old(Snapshot()), r, bot, now) && d.score == Score(d.reasons)
      ensures Snapshot() == old(Snapshot()).(tables := Asked(rt, old(Snapshot()), r, now).0)
    {
      ghost var w := Snapshot();
      var own, behavior := CollectOwn(rt, r, bot, now);
      d := CollectFloods(rt, r, bot, now, own, behavior, w);
    }

    method Judge(rt: Runtime, r: Request, bot: GoodBot.Verdict, now: nat, ok: bool) returns (d: Decision)
      requires Valid() && limiter.table.clock <= now && panel.Ready(r.ip, now)
      modifies reputations, panel.Footprint()
      ensures Valid() && fresh(panel.Footprint() - old(panel.Footprint())) && limiter.table.clock <= now
      ensures (Snapshot(), d) == Judged(setup, rt, old(Snapshot()), r, bot, now, ok)
    {
      var scored := Collect(rt, r, bot, now);
      d := Settle(rt, r.ip, scored, now, ok);
    }

    method Finish(rt: Runtime, r: Request, bot: GoodBot.Verdict, now: nat, ok: bool) returns (d: Decision)
      requires Valid() && limiter.table.clock <= now && panel.Ready(r.ip, now)
      modifies reputations, panel.Footprint()
      ensures Valid() && fresh(panel.Footprint() - old(panel.Footprint())) && limiter.table.clock <= now
      ensures (Snapshot(), d) == Tail(setup, rt, old(Snapshot()), r, bot, now, ok)
    {
      if r.cleared { return Allowed(); }
      if Uam(rt).forceChallenge { return Challenged(100, [Reason("UAM-FORCE", 100)]); }
      d := Judge(rt, r, bot, now, ok);
    }

    method EvaluateLate(rt: Runtime, r: Request, bot: GoodBot.Verdict, now: nat, ok: bool) returns (d: Decision)
      requires Valid() && Ready(r.ip, now)
      modifies reputations, Counters(), panel.Footprint()
      ensures Valid() && limiter.table.clock <= now
      ensures fresh(Counters() - old(Counters())) && fresh(panel.Footprint() - old(panel.Footprint()))
      ensures (Snapshot(), d) == Late(setup, rt, old(Snapshot()), r, bot, now, ok)
    {
      var v := CheckRate(rt, r, now);
      if v.Limited? { return Blocked(429, Reason("RL-01", 30)); }
      d := Finish(rt, r, bot, now, ok);
    }

    method EvaluateGated(rt: Runtime, r: Request, bot: GoodBot.Verdict, now: nat, ok: bool) returns (d: Decision)
      requires Valid() && Ready(r.ip, now)
      modifies reputations, Counters(), panel.Footprint()
      ensures Valid() && limiter.table.clock <= now
      ensures fresh(Counters() - old(Counters())) && fresh(panel.Footprint() - old(panel.Footprint()))
      ensures (Snapshot(), d) == Gated(setup, rt, old(Snapshot()), r, bot, now, ok)
    {
      var early := CheckGate(rt, r);
      if early.Some? { return early.value; }
      d := EvaluateLate(rt, r, bot, now, ok);
    }

    method EvaluateChecked(rt: Runtime, r: Request, bot: GoodBot.Verdict, now: nat, ok: bool) returns (d: Decision)
      requires Valid() && Ready(r.ip, now)
      modifies reputations, Counters(), panel.Footprint()
      ensures Valid() && limiter.table.clock <= now
      ensures fresh(Counters() - old(Counters())) && fresh(panel.Footprint() - old(panel.Footprint()))
      ensures (Snapshot(), d) == Checked(setup, rt, old(Snapshot()), r, bot, now, ok)
    {
      if rt.on.honeypots && r.trap.Some? {
        SpringTrap(r, now, ok);
        return Blocked(403, r.trap.value);
      }
      d := EvaluateGated(rt, r, bot, now, ok);
    }

    method EvaluateUnlisted(rt: Runtime, r: Request, now: nat, ok: bool) returns (d: Decision)
      requires Valid() && Ready(r.ip, now)
      modifies this`lookups, goodbot, reputations, Counters(), panel.Footprint()
      ensures Valid() && limiter.table.clock <= now
      ensures fresh(Counters() - old(Counters())) && fresh(panel.Footprint() - old(panel.Footprint()))
      ensures (Snapshot(), d) == Unlisted(setup, rt, old(Snapshot()), r, now, ok)
    {
      var bot := CheckCrawler(rt, r, now);
      if bot.GoodBotVerified? { return Allowed(); }
      d := EvaluateChecked(rt, r, bot, now, ok);
    }

    method Evaluate(rt: Runtime, r: Request, now: nat, ok: bool) returns (d: Decision)
      requires Valid() && Ready(r.ip, now)
      modifies this`lookups, goodbot, reputations, Counters(), panel.Footprint()
      ensures Valid() && limiter.table.clock <= now
      ensures fresh(Counters() - old(Counters())) && fresh(panel.Footprint() - old(panel.Footprint()))
      ensures (Snapshot(), d) == Outcome(setup, rt, old(Snapshot()), r, now, ok)
    {
      var early := CheckLists(rt, r, now);
      if early.Some? { return early.value; }
      d := EvaluateUnlisted(rt, r, now, ok);
    }
  }
}
