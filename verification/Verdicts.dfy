/** The pipeline of the engine, stage behind stage, against one flat list of what it answers: every rule,
    number and reason in its place. */
module Verdicts {
  import Bans
  import Behavior
  import GoodBot
  import RateLimit
  import Signature
  import Subnet
  import Trackers
  import opened Connections
  import opened Decision
  import opened Engine
  import opened Net
  import opened Words

  // ---- Points ----

  function Points(fires: bool, n: nat): nat {
    if fires then n else 0
  }

  lemma {:induction false} TotalConcat(a: seq<Reason>, b: seq<Reason>)
    ensures Total(a + b) == Total(a) + Total(b)
  {
    if b == [] {
      assert a + b == a;
    } else {
      var n := |b| - 1;
      assert (a + b)[..|a + b| - 1] == a + b[..n];
      TotalConcat(a, b[..n]);
    }
  }

  lemma TotalOne(x: Reason)
    ensures Total([x]) == x.score
  {
    assert [x][..0] == [];
  }

  lemma TotalIf(b: bool, rule: string, n: nat)
    ensures Total(If(b, rule, n)) == Points(b, n)
  {
    TotalOne(Reason(rule, n));
  }

  lemma TotalHit(on: bool, rule: Option<string>, n: nat)
    ensures Total(Hit(on, rule, n)) == Points(on && rule.Some?, n)
  {
    if rule.Some? { TotalOne(Reason(rule.value, n)); }
  }

  /** One more source adds its points. */
  lemma PlusIf(sofar: seq<Reason>, b: bool, rule: string, n: nat)
    ensures Total(sofar + If(b, rule, n)) == Total(sofar) + Points(b, n)
  {
    TotalConcat(sofar, If(b, rule, n));
    TotalIf(b, rule, n);
  }

  lemma PlusHit(sofar: seq<Reason>, on: bool, rule: Option<string>, n: nat)
    ensures Total(sofar + Hit(on, rule, n)) == Total(sofar) + Points(on && rule.Some?, n)
  {
    TotalConcat(sofar, Hit(on, rule, n));
    TotalHit(on, rule, n);
  }

  function HeaderPoints(r: Request): nat {
    Points(r.hostEmpty, 100) + Points(r.ua == "", 10) + Points(|r.headerLens| < 3, 20) + Points(r.clAndChunked, 25)
  }

  lemma HeaderTotal(r: Request)
    ensures Total(HeaderReasons(r)) == HeaderPoints(r)
  {
    var a := If(r.hostEmpty, "HDR-NO-HOST", 100);
    var b := a + If(r.ua == "", "HDR-NO-UA", 10);
    var c := b + If(|r.headerLens| < 3, "HDR-MINIMAL", 20);
    TotalIf(r.hostEmpty, "HDR-NO-HOST", 100);
    PlusIf(a, r.ua == "", "HDR-NO-UA", 10);
    PlusIf(b, |r.headerLens| < 3, "HDR-MINIMAL", 20);
    PlusIf(c, r.clAndChunked, "HDR-CL-TE", 25);
  }

  function OriginPoints(r: Request, bot: GoodBot.Verdict): nat {
    Points(bot.GoodBotSpoofed?, 60) + Total(r.geo) + HeaderPoints(r)
  }

  lemma OriginTotal(r: Request, bot: GoodBot.Verdict)
    ensures Total(OriginReasons(r, bot)) == OriginPoints(r, bot)
  {
    var spoof := [] + If(bot.GoodBotSpoofed?, "GOODBOT-SPOOF", 60);
    PlusIf([], bot.GoodBotSpoofed?, "GOODBOT-SPOOF", 60);
    TotalConcat(spoof, r.geo);
    TotalConcat(spoof + r.geo, HeaderReasons(r));
    HeaderTotal(r);
  }

  lemma TotalThree(s: seq<Reason>, a: seq<Reason>, b: seq<Reason>, c: seq<Reason>)
    ensures Total(s + a + b + c) == Total(s) + Total(a) + Total(b) + Total(c)
  {
    TotalConcat(s, a);
    TotalConcat(s + a, b);
    TotalConcat(s + a + b, c);
  }

  /** Does the score of the bot heuristics count? Not while a crawler's lookup is under way, nor with a
      valid integrity cookie. */
  predicate BotsScored(on: Switches, r: Request, bot: GoodBot.Verdict) {
    on.botScore && !bot.GoodBotPending? && (!on.bic || !r.bicValid)
  }

  function ClientPoints(on: Switches, r: Request, bot: GoodBot.Verdict, a: Trackers.Answers): nat {
    OriginPoints(r, bot) + (if BotsScored(on, r, bot) then Total(r.botReasons) else 0)
    + Total(a.behavior) + (if on.ddos then Total(r.ddosReasons) else 0) + Points(on.datacenter && r.inDatacenter, 25)
  }

  lemma TotalWhen(b: bool, rs: seq<Reason>)
    ensures Total(When(b, rs)) == if b then Total(rs) else 0
  {
  }

  lemma TotalFour(s: seq<Reason>, a: seq<Reason>, b: seq<Reason>, c: seq<Reason>, d: seq<Reason>)
    ensures Total(s + a + b + c + d) == Total(s) + Total(a) + Total(b) + Total(c) + Total(d)
  {
    TotalThree(s, a, b, c);
    TotalConcat(s + a + b + c, d);
  }

  lemma ClientParts(on: Switches, r: Request, bot: GoodBot.Verdict, a: Trackers.Answers)
    ensures Total(ClientReasons(on, r, bot, a.behavior))
         == Total(OriginReasons(r, bot))
          + Total(When(!bot.GoodBotPending? && !(on.bic && r.bicValid) && on.botScore, r.botReasons))
          + Total(a.behavior) + Total(When(on.ddos, r.ddosReasons))
          + Total(If(on.datacenter && r.inDatacenter, "DC-RANGE", 25))
  {
    TotalFour(OriginReasons(r, bot),
              When(!bot.GoodBotPending? && !(on.bic && r.bicValid) && on.botScore, r.botReasons),
              a.behavior, When(on.ddos, r.ddosReasons), If(on.datacenter && r.inDatacenter, "DC-RANGE", 25));
  }

  lemma ClientTotal(on: Switches, r: Request, bot: GoodBot.Verdict, a: Trackers.Answers)
    ensures Total(ClientReasons(on, r, bot, a.behavior)) == ClientPoints(on, r, bot, a)
  {
    OriginTotal(r, bot);
    ClientParts(on, r, bot, a);
    TotalWhen(!bot.GoodBotPending? && !(on.bic && r.bicValid) && on.botScore, r.botReasons);
    TotalWhen(on.ddos, r.ddosReasons);
    TotalIf(on.datacenter && r.inDatacenter, "DC-RANGE", 25);
  }

  function FloodPoints(on: Switches, r: Request, a: Trackers.Answers): nat {
    Total(a.subnet) + Total(a.replay) + Total(a.distUa) + Points(on.botUa && r.ua != "" && r.uaSuspicious, 60)
  }

  lemma FloodTotal(on: Switches, r: Request, a: Trackers.Answers, sofar: seq<Reason>)
    ensures Total(sofar + a.subnet + a.replay + a.distUa
                  + If(on.botUa && r.ua != "" && r.uaSuspicious, "UA-SUSPICIOUS", 60))
         == Total(sofar) + FloodPoints(on, r, a)
  {
    TotalThree(sofar, a.subnet, a.replay, a.distUa);
    PlusIf(sofar + a.subnet + a.replay + a.distUa, on.botUa && r.ua != "" && r.uaSuspicious, "UA-SUSPICIOUS", 60);
  }

  function PatternPoints(on: Switches, r: Request): nat {
    Points(on.sqli && r.sqliRule.Some?, 80) + Points(on.xss && r.xssRule.Some?, 80)
    + Points(on.traversal && r.traversalRule.Some?, 70)
    + Points(on.cmdi && r.cmdiRule.Some?, 80) + Points(on.lfi && r.lfiRule.Some?, 70)
  }

  lemma PatternTotal(on: Switches, r: Request, sofar: seq<Reason>)
    ensures Total(sofar + Hit(on.sqli, r.sqliRule, 80) + Hit(on.xss, r.xssRule, 80)
                  + Hit(on.traversal, r.traversalRule, 70) + Hit(on.cmdi, r.cmdiRule, 80) + Hit(on.lfi, r.lfiRule, 70))
         == Total(sofar) + PatternPoints(on, r)
  {
    var (a, b, c) := (Hit(on.sqli, r.sqliRule, 80), Hit(on.xss, r.xssRule, 80), Hit(on.traversal, r.traversalRule, 70));
    TotalHit(on.sqli, r.sqliRule, 80);
    TotalHit(on.xss, r.xssRule, 80);
    TotalHit(on.traversal, r.traversalRule, 70);
    TotalThree(sofar, a, b, c);
    LastTwo(on, r, sofar + a + b + c);
  }

  lemma LastTwo(on: Switches, r: Request, sofar: seq<Reason>)
    ensures Total(sofar + Hit(on.cmdi, r.cmdiRule, 80) + Hit(on.lfi, r.lfiRule, 70))
         == Total(sofar) + Points(on.cmdi && r.cmdiRule.Some?, 80) + Points(on.lfi && r.lfiRule.Some?, 70)
  {
    PlusHit(sofar, on.cmdi, r.cmdiRule, 80);
    PlusHit(sofar + Hit(on.cmdi, r.cmdiRule, 80), on.lfi, r.lfiRule, 70);
  }

  /** What a request scores: the points of everything that speaks against it. */
  function PointsOf(on: Switches, r: Request, bot: GoodBot.Verdict, a: Trackers.Answers): nat {
    ClientPoints(on, r, bot, a) + FloodPoints(on, r, a) + PatternPoints(on, r)
  }

  lemma AttackTotal(on: Switches, r: Request, a: Trackers.Answers, sofar: seq<Reason>)
    ensures Total(AttackReasons(on, r, a, sofar)) == Total(sofar) + FloodPoints(on, r, a) + PatternPoints(on, r)
  {
    var floods := sofar + a.subnet + a.replay + a.distUa
                  + If(on.botUa && r.ua != "" && r.uaSuspicious, "UA-SUSPICIOUS", 60);
    FloodTotal(on, r, a, sofar);
    PatternTotal(on, r, floods);
  }

  /** The score is the sum of the points of all that fires, each source once, and of nothing else. */
  lemma ScoreIsPoints(on: Switches, r: Request, bot: GoodBot.Verdict, a: Trackers.Answers)
    ensures Score(Reasons(on, r, bot, a)) == Min(PointsOf(on, r, bot, a), U32_MAX)
  {
    ClientTotal(on, r, bot, a);
    AttackTotal(on, r, a, ClientReasons(on, r, bot, a.behavior));
  }

  // ---- Reasons ----

  function Bag(fires: bool, x: Reason): multiset<Reason> {
    if fires then multiset{x} else multiset{}
  }

  function Fired(on: bool, rule: Option<string>, score: nat): multiset<Reason> {
    if on && rule.Some? then multiset{Reason(rule.value, score)} else multiset{}
  }

  function HeaderBag(r: Request): multiset<Reason> {
    Bag(r.hostEmpty, Reason("HDR-NO-HOST", 100)) + Bag(r.ua == "", Reason("HDR-NO-UA", 10))
    + Bag(|r.headerLens| < 3, Reason("HDR-MINIMAL", 20)) + Bag(r.clAndChunked, Reason("HDR-CL-TE", 25))
  }

  function ClientBag(on: Switches, r: Request, bot: GoodBot.Verdict, a: Trackers.Answers): multiset<Reason> {
    Bag(bot.GoodBotSpoofed?, Reason("GOODBOT-SPOOF", 60)) + multiset(r.geo) + HeaderBag(r)
    + (if BotsScored(on, r, bot) then multiset(r.botReasons) else multiset{})
    + multiset(a.behavior) + (if on.ddos then multiset(r.ddosReasons) else multiset{})
    + Bag(on.datacenter && r.inDatacenter, Reason("DC-RANGE", 25))
  }

  function FloodBag(on: Switches, r: Request, a: Trackers.Answers): multiset<Reason> {
    multiset(a.subnet) + multiset(a.replay) + multiset(a.distUa)
    + Bag(on.botUa && r.ua != "" && r.uaSuspicious, Reason("UA-SUSPICIOUS", 60))
  }

  function PatternBag(on: Switches, r: Request): multiset<Reason> {
    Fired(on.sqli, r.sqliRule, 80) + Fired(on.xss, r.xssRule, 80) + Fired(on.traversal, r.traversalRule, 70)
    + Fired(on.cmdi, r.cmdiRule, 80) + Fired(on.lfi, r.lfiRule, 70)
  }

  lemma HeaderBagged(r: Request)
    ensures multiset(HeaderReasons(r)) == HeaderBag(r)
  {
  }

  lemma OriginBagged(r: Request, bot: GoodBot.Verdict)
    ensures multiset(OriginReasons(r, bot))
         == Bag(bot.GoodBotSpoofed?, Reason("GOODBOT-SPOOF", 60)) + multiset(r.geo) + HeaderBag(r)
  {
    HeaderBagged(r);
  }

  lemma ClientBagged(on: Switches, r: Request, bot: GoodBot.Verdict, a: Trackers.Answers)
    ensures multiset(ClientReasons(on, r, bot, a.behavior)) == ClientBag(on, r, bot, a)
  {
    OriginBagged(r, bot);
  }

  lemma PatternBagged(on: Switches, r: Request, sofar: seq<Reason>)
    ensures multiset(sofar + Hit(on.sqli, r.sqliRule, 80) + Hit(on.xss, r.xssRule, 80)
                     + Hit(on.traversal, r.traversalRule, 70) + Hit(on.cmdi, r.cmdiRule, 80)
                     + Hit(on.lfi, r.lfiRule, 70))
         == multiset(sofar) + PatternBag(on, r)
  {
  }

  lemma FloodBagged(on: Switches, r: Request, a: Trackers.Answers, sofar: seq<Reason>)
    ensures multiset(sofar + a.subnet + a.replay + a.distUa
                     + If(on.botUa && r.ua != "" && r.uaSuspicious, "UA-SUSPICIOUS", 60))
         == multiset(sofar) + FloodBag(on, r, a)
  {
  }

  lemma AttackBagged(on: Switches, r: Request, a: Trackers.Answers, sofar: seq<Reason>)
    ensures multiset(AttackReasons(on, r, a, sofar)) == multiset(sofar) + FloodBag(on, r, a) + PatternBag(on, r)
  {
    FloodBagged(on, r, a, sofar);
    PatternBagged(on, r, sofar + a.subnet + a.replay + a.distUa
                         + If(on.botUa && r.ua != "" && r.uaSuspicious, "UA-SUSPICIOUS", 60));
  }

  /** The reasons given are those of the sources that fire, each as often as its source gives it. */
  lemma ReasonsExactly(on: Switches, r: Request, bot: GoodBot.Verdict, a: Trackers.Answers)
    ensures multiset(Reasons(on, r, bot, a)) == ClientBag(on, r, bot, a) + FloodBag(on, r, a) + PatternBag(on, r)
  {
    ClientBagged(on, r, bot, a);
    AttackBagged(on, r, a, ClientReasons(on, r, bot, a.behavior));
  }

  function First(rs: seq<Reason>): Option<Reason> {
    if rs == [] then None else Some(rs[0])
  }

  function Or(x: Option<Reason>, y: Option<Reason>): Option<Reason> {
    if x.Some? then x else y
  }

  function Firing(on: bool, rule: Option<string>, score: nat): Option<Reason> {
    if on && rule.Some? then Some(Reason(rule.value, score)) else None
  }

  /** The reason a block names: a spoofed crawler before all else, then the country, then the headers. */
  function OriginLead(r: Request, bot: GoodBot.Verdict): Option<Reason> {
    if bot.GoodBotSpoofed? then Some(Reason("GOODBOT-SPOOF", 60))
    else if r.geo != [] then Some(r.geo[0])
    else if r.hostEmpty then Some(Reason("HDR-NO-HOST", 100))
    else if r.ua == "" then Some(Reason("HDR-NO-UA", 10))
    else if |r.headerLens| < 3 then Some(Reason("HDR-MINIMAL", 20))
    else if r.clAndChunked then Some(Reason("HDR-CL-TE", 25))
    else None
  }

  /** Then the heuristics on the client and its behaviour. */
  function ClientLead(on: Switches, r: Request, bot: GoodBot.Verdict, a: Trackers.Answers): Option<Reason> {
    if OriginLead(r, bot).Some? then OriginLead(r, bot)
    else if BotsScored(on, r, bot) && r.botReasons != [] then Some(r.botReasons[0])
    else if a.behavior != [] then Some(a.behavior[0])
    else if on.ddos && r.ddosReasons != [] then Some(r.ddosReasons[0])
    else if on.datacenter && r.inDatacenter then Some(Reason("DC-RANGE", 25))
    else None
  }

  /** Then the floods. */
  function FloodLead(on: Switches, r: Request, a: Trackers.Answers): Option<Reason> {
    if a.subnet != [] then Some(a.subnet[0])
    else if a.replay != [] then Some(a.replay[0])
    else if a.distUa != [] then Some(a.distUa[0])
    else if on.botUa && r.ua != "" && r.uaSuspicious then Some(Reason("UA-SUSPICIOUS", 60))
    else None
  }

  /** And at last the patterns. */
  function PatternLead(on: Switches, r: Request): Option<Reason> {
    Or(Firing(on.sqli, r.sqliRule, 80),
       Or(Firing(on.xss, r.xssRule, 80),
          Or(Firing(on.traversal, r.traversalRule, 70),
             Or(Firing(on.cmdi, r.cmdiRule, 80), Firing(on.lfi, r.lfiRule, 70)))))
  }

  lemma FirstOf(a: seq<Reason>, b: seq<Reason>)
    ensures First(a + b) == Or(First(a), First(b))
  {
  }

  lemma FirstOfFive(s: seq<Reason>, a: seq<Reason>, b: seq<Reason>, c: seq<Reason>, d: seq<Reason>)
    ensures First(s + a + b + c + d) == Or(First(s), Or(First(a), Or(First(b), Or(First(c), First(d)))))
  {
    FirstOf(s + a + b + c, d);
    FirstOf(s + a + b, c);
    FirstOf(s + a, b);
    FirstOf(s, a);
  }

  lemma OriginLeads(r: Request, bot: GoodBot.Verdict)
    ensures First(OriginReasons(r, bot)) == OriginLead(r, bot)
  {
  }

  lemma ClientLeads(on: Switches, r: Request, bot: GoodBot.Verdict, a: Trackers.Answers)
    ensures First(ClientReasons(on, r, bot, a.behavior)) == ClientLead(on, r, bot, a)
  {
    OriginLeads(r, bot);
    FirstOfFive(OriginReasons(r, bot),
                When(!bot.GoodBotPending? && !(on.bic && r.bicValid) && on.botScore, r.botReasons),
                a.behavior, When(on.ddos, r.ddosReasons), If(on.datacenter && r.inDatacenter, "DC-RANGE", 25));
  }

  lemma FloodLeads(on: Switches, r: Request, a: Trackers.Answers, sofar: seq<Reason>)
    ensures First(sofar + a.subnet + a.replay + a.distUa
                  + If(on.botUa && r.ua != "" && r.uaSuspicious, "UA-SUSPICIOUS", 60))
         == Or(First(sofar), FloodLead(on, r, a))
  {
  }

  lemma PatternLeads(on: Switches, r: Request, sofar: seq<Reason>)
    ensures First(sofar + Hit(on.sqli, r.sqliRule, 80) + Hit(on.xss, r.xssRule, 80)
                  + Hit(on.traversal, r.traversalRule, 70) + Hit(on.cmdi, r.cmdiRule, 80) + Hit(on.lfi, r.lfiRule, 70))
         == Or(First(sofar), PatternLead(on, r))
  {
  }

  function Lead(on: Switches, r: Request, bot: GoodBot.Verdict, a: Trackers.Answers): Option<Reason> {
    Or(Or(ClientLead(on, r, bot, a), FloodLead(on, r, a)), PatternLead(on, r))
  }

  /** The first reason is that of the first source, in this order, that fires; there is none if none does. */
  lemma LeadIsFirst(on: Switches, r: Request, bot: GoodBot.Verdict, a: Trackers.Answers)
    ensures First(Reasons(on, r, bot, a)) == Lead(on, r, bot, a)
  {
    var client := ClientReasons(on, r, bot, a.behavior);
    ClientLeads(on, r, bot, a);
    FloodLeads(on, r, a, client);
    PatternLeads(on, r, client + a.subnet + a.replay + a.distUa
                        + If(on.botUa && r.ua != "" && r.uaSuspicious, "UA-SUSPICIOUS", 60));
  }

  // ---- The answer ----

  /** The level in force: the stored one if there is such a level, or Medium under the older flag. */
  function InForce(rt: Runtime): nat {
    if 1 <= rt.uam <= 4 then rt.uam else if rt.underAttack then 2 else 0
  }

  /** The share of the configured rates that is in force, in percent. */
  function Percent(level: nat): nat
    requires level <= 4
  {
    [100, 75, 50, 25, 10][level]
  }

  /** Too many requests of one address at once, with the clamps of the two highest levels. */
  predicate Crowded(rt: Runtime, held: int) {
    && rt.maxPerIp > 0
    && (held > rt.maxPerIp || (InForce(rt) == 3 && held > 50) || (InForce(rt) == 4 && held > 25))
  }

  /** What is known of a claim to be a crawler. */
  function Crawl(e: Setup, rt: Runtime, w: World, r: Request, now: nat): GoodBot.Verdict {
    var claim := GoodBot.Claim(e.bots, r.ua);
    if !rt.on.goodbot || claim.None? then GoodBot.NotABot
    else if r.ip !in w.cache || now >= w.cache[r.ip].expiresAt then GoodBot.GoodBotPending
    else
      match w.cache[r.ip].status
      case Pending => GoodBot.GoodBotPending
      case Verified(n) => GoodBot.GoodBotVerified(n)
      case Rejected => GoodBot.GoodBotSpoofed(claim.value)
  }

  ghost predicate Limited(e: Setup, rt: Runtime, w: World, r: Request, now: nat) {
    && rt.on.rateLimit
    && RateLimit.Check(RateLimit.LimitsAt(e.rates, 100 * Percent(InForce(rt))), w.hist, r.ip, r.path, now).1.Limited?
  }

  /** By the points alone: every level lowers both thresholds by five. */
  function ByPoints(rt: Runtime, points: nat, reasons: seq<Reason>, lead: Option<Reason>): Decision {
    if points + 5 * InForce(rt) >= rt.blockThreshold then
      if 0 < rt.tarpitScore <= points then Decision(Tarpit, 200, points, reasons)
      else
        var why := if lead.Some? then lead.value else Reason("ANOMALY", points);
        Decision(Block, 403, why.score, [why])
    else if points + 5 * InForce(rt) >= rt.challengeThreshold then Decision(Challenge, 403, points, reasons)
    else Decision(Allow, 200, 0, [])
  }

  ghost function Scored(rt: Runtime, w: World, r: Request, bot: GoodBot.Verdict, now: nat): Decision {
    var a := Asked(rt, w, r, now).1;
    ByPoints(rt, Min(PointsOf(rt.on, r, bot, a), 0xFFFF_FFFF), Reasons(rt.on, r, bot, a), Lead(rt.on, r, bot, a))
  }

  /** Everything the engine may answer a request it looks at, in the order in which it decides. */
  ghost function LateAnswer(e: Setup, rt: Runtime, w: World, r: Request, bot: GoodBot.Verdict, now: nat): Decision {
    if Limited(e, rt, w, r, now) then Decision(Block, 429, 30, [Reason("RL-01", 30)])
    else if r.cleared then Decision(Allow, 200, 0, [])
    else if InForce(rt) >= 2 then Decision(Challenge, 403, 100, [Reason("UAM-FORCE", 100)])
    else Scored(rt, w, r, bot, now)
  }

  ghost function CheckedAnswer(e: Setup, rt: Runtime, w: World, r: Request, bot: GoodBot.Verdict, now: nat): Decision {
    if rt.on.honeypots && r.trap.Some? then Decision(Block, 403, r.trap.value.score, [r.trap.value])
    else if Crowded(rt, Count(w.conns, r.ip)) then Decision(Block, 429, 100, [Reason("CONN-CAP", 100)])
    else if HardLimit(e.limits, r).Some? then HardLimit(e.limits, r).value
    else LateAnswer(e, rt, w, r, bot, now)
  }

  /** And any request at all: the allow lists win, then the deny lists and bans, then known crawlers. */
  ghost function Answer(e: Setup, rt: Runtime, w: World, r: Request, now: nat): Decision {
    if r.ip in rt.allow || r.ip in e.reputation.allow then Decision(Allow, 200, 0, [])
    else if r.ip in e.reputation.deny || Bans.Entry(w.bans, r.ip).banUntil > now then
      Decision(Block, 403, 100, [Reason("REP-DENY", 100)])
    else if r.ip in rt.deny then Decision(Block, 403, 100, [Reason("REP-DENY-RT", 100)])
    else
      var bot := Crawl(e, rt, w, r, now);
      if bot.GoodBotVerified? then Decision(Allow, 200, 0, []) else CheckedAnswer(e, rt, w, r, bot, now)
  }

  lemma LevelsAgree(rt: Runtime)
    ensures Level(rt) == InForce(rt) && Scale(rt) == 100 * Percent(InForce(rt))
    ensures Uam(rt).forceChallenge <==> InForce(rt) >= 2
    ensures Uam(rt).blockDrop == Uam(rt).challengeDrop == 5 * InForce(rt)
  {
  }

  lemma CapsAgree(rt: Runtime, conns: map<IpAddr, int>, r: Request)
    ensures OverCap(rt, conns, r) <==> Crowded(rt, Count(conns, r.ip))
  {
  }

  lemma CrawlersAgree(e: Setup, rt: Runtime, w: World, r: Request, now: nat)
    ensures Crawler(e, rt, w, r, now).1 == Crawl(e, rt, w, r, now)
  {
  }

  lemma ScoresAgree(rt: Runtime, w: World, r: Request, bot: GoodBot.Verdict, now: nat)
    ensures Weighed(rt, ReasonsAt(rt, w, r, bot, now)) == Scored(rt, w, r, bot, now)
  {
    var a := Asked(rt, w, r, now).1;
    LevelsAgree(rt);
    ScoreIsPoints(rt.on, r, bot, a);
    LeadIsFirst(rt.on, r, bot, a);
  }

  /** The crawler check touches nothing the later stages look at. */
  predicate SameButCrawlers(w: World, w': World) {
    w'.bans == w.bans && w'.hist == w.hist && w'.conns == w.conns && w'.tables == w.tables
  }

  lemma LateAgrees(e: Setup, rt: Runtime, w: World, w': World, r: Request, bot: GoodBot.Verdict, now: nat, ok: bool)
    requires SameButCrawlers(w, w')
    ensures Late(e, rt, w', r, bot, now, ok).1 == LateAnswer(e, rt, w, r, bot, now)
  {
    LevelsAgree(rt);
    var w'' := Rated(e, rt, w', r, now).0;
    assert Asked(rt, w'', r, now) == Asked(rt, w, r, now);
    ScoresAgree(rt, w, r, bot, now);
  }

  lemma CheckedAgrees(e: Setup, rt: Runtime, w: World, w': World, r: Request, bot: GoodBot.Verdict, now: nat, ok: bool)
    requires SameButCrawlers(w, w')
    ensures Checked(e, rt, w', r, bot, now, ok).1 == CheckedAnswer(e, rt, w, r, bot, now)
  {
    CapsAgree(rt, w.conns, r);
    LateAgrees(e, rt, w, w', r, bot, now, ok);
  }

  /** The stages come to the list, for every request in every state under every setting. */
  lemma OutcomeIsAnswer(e: Setup, rt: Runtime, w: World, r: Request, now: nat, ok: bool)
    ensures Outcome(e, rt, w, r, now, ok).1 == Answer(e, rt, w, r, now)
  {
    var (w', bot) := Crawler(e, rt, w, r, now);
    CrawlersAgree(e, rt, w, r, now);
    CheckedAgrees(e, rt, w, w', r, bot, now, ok);
  }

  /** An attack that is looked for and found is blocked or tarpitted whatever else the request has going
      for it, once its points alone reach the threshold, and is held against its address. */
  lemma AttackIsBlocked(e: Setup, rt: Runtime, w: World, r: Request, now: nat, ok: bool)
    requires Reaches(e, rt, w, r, now) && !r.cleared && InForce(rt) <= 1 && rt.blockThreshold <= U32_MAX
    requires (80 + 5 * InForce(rt) >= rt.blockThreshold
              && ((rt.on.sqli && r.sqliRule.Some?) || (rt.on.xss && r.xssRule.Some?)
                  || (rt.on.cmdi && r.cmdiRule.Some?)))
          || (70 + 5 * InForce(rt) >= rt.blockThreshold
              && ((rt.on.traversal && r.traversalRule.Some?) || (rt.on.lfi && r.lfiRule.Some?)))
    ensures Outcome(e, rt, w, r, now, ok).1.action in {Block, Tarpit}
    ensures Charge(e, rt, w, r, now, ok) == Some(Bans.Offend(r.ip, now, ok))
  {
    var bot := Crawler(e, rt, w, r, now).1;
    var a := Asked(rt, w, r, now).1;
    LevelsAgree(rt);
    ScoreIsPoints(rt.on, r, bot, a);
    assert PointsOf(rt.on, r, bot, a) >= PatternPoints(rt.on, r);
    EvaluateCharges(e, rt, w, r, now, ok);
  }

  // ---- What a request leaves behind ----

  /** Is the request let in to be looked at: on no list, and no crawler known for certain? */
  ghost predicate LookedAt(e: Setup, rt: Runtime, w: World, r: Request, now: nat) {
    && r.ip !in rt.allow && r.ip !in e.reputation.allow && r.ip !in e.reputation.deny
    && Bans.Entry(w.bans, r.ip).banUntil <= now && r.ip !in rt.deny
  }

  /** And does it get as far as the rate limit? */
  ghost predicate Counted(e: Setup, rt: Runtime, w: World, r: Request, now: nat) {
    && LookedAt(e, rt, w, r, now) && !Crawl(e, rt, w, r, now).GoodBotVerified?
    && !(rt.on.honeypots && r.trap.Some?) && !Crowded(rt, Count(w.conns, r.ip)) && HardLimit(e.limits, r).None?
  }

  /** Of the tables behind the checks, `hist` and `tables` change as said. */
  ghost predicate Traced(e: Setup, rt: Runtime, w: World, w': World, r: Request, now: nat, counted: bool) {
    && w'.hist == (if counted && rt.on.rateLimit
                   then RateLimit.Check(RateLimit.LimitsAt(e.rates, 100 * Percent(InForce(rt))),
                                        w.hist, r.ip, r.path, now).0
                   else w.hist)
    && w'.tables == (if counted && !Limited(e, rt, w, r, now) && !r.cleared && InForce(rt) <= 1
                     then Asked(rt, w, r, now).0
                     else w.tables)
  }

  lemma RatedTraces(e: Setup, rt: Runtime, w: World, r: Request, now: nat)
    ensures var (w', v) := Rated(e, rt, w, r, now);
      && w' == w.(hist := if rt.on.rateLimit
                          then RateLimit.Check(RateLimit.LimitsAt(e.rates, 100 * Percent(InForce(rt))),
                                               w.hist, r.ip, r.path, now).0
                          else w.hist)
      && (v.Limited? <==> Limited(e, rt, w, r, now))
  {
    LevelsAgree(rt);
  }

  lemma TailTraces(e: Setup, rt: Runtime, w: World, r: Request, bot: GoodBot.Verdict, now: nat, ok: bool)
    ensures var w' := Tail(e, rt, w, r, bot, now, ok).0;
      w' == w.(bans := w'.bans,
               tables := if !r.cleared && InForce(rt) <= 1 then Asked(rt, w, r, now).0 else w.tables)
  {
    LevelsAgree(rt);
  }

  /** The limiter counts a request exactly if it gets so far; the trackers see it exactly if it is scored. */
  lemma LateTraces(e: Setup, rt: Runtime, w: World, r: Request, bot: GoodBot.Verdict, now: nat, ok: bool)
    ensures var w' := Late(e, rt, w, r, bot, now, ok).0;
      && w'.conns == w.conns && w'.cache == w.cache && w'.lookups == w.lookups && Traced(e, rt, w, w', r, now, true)
  {
    var w'' := Rated(e, rt, w, r, now).0;
    RatedTraces(e, rt, w, r, now);
    TailTraces(e, rt, w'', r, bot, now, ok);
    assert Asked(rt, w'', r, now) == Asked(rt, w, r, now);
  }

  lemma CheckedTraces(e: Setup, rt: Runtime, w: World, r: Request, bot: GoodBot.Verdict, now: nat, ok: bool)
    ensures var w' := Checked(e, rt, w, r, bot, now, ok).0;
            var counted := !(rt.on.honeypots && r.trap.Some?) && !Crowded(rt, Count(w.conns, r.ip))
                           && HardLimit(e.limits, r).None?;
      && w'.conns == w.conns && w'.cache == w.cache && w'.lookups == w.lookups
      && Traced(e, rt, w, w', r, now, counted)
  {
    CapsAgree(rt, w.conns, r);
    LateTraces(e, rt, w, r, bot, now, ok);
  }

  /** Does a lookup of the address begin? */
  ghost predicate Begins(e: Setup, rt: Runtime, w: World, r: Request, now: nat) {
    && LookedAt(e, rt, w, r, now) && rt.on.goodbot && GoodBot.Claim(e.bots, r.ua).Some?
    && (r.ip !in w.cache || now >= w.cache[r.ip].expiresAt)
  }

  lemma CrawlerTraces(e: Setup, rt: Runtime, w: World, r: Request, now: nat)
    ensures var w' := Crawler(e, rt, w, r, now).0;
            var begins := rt.on.goodbot && GoodBot.Claim(e.bots, r.ua).Some?
                          && (r.ip !in w.cache || now >= w.cache[r.ip].expiresAt);
      && SameButCrawlers(w, w')
      && w'.cache == (if begins then w.cache[r.ip := GoodBot.CacheEntry(GoodBot.Pending, now + 30)] else w.cache)
      && w'.lookups == (if begins then w.lookups + [GoodBot.Lookup(r.ip, GoodBot.Claim(e.bots, r.ua).value)]
                        else w.lookups)
  {
  }

  lemma ListsAgree(e: Setup, rt: Runtime, w: World, r: Request, now: nat)
    ensures Lists(e, rt, w.bans, r, now).None? <==> LookedAt(e, rt, w, r, now)
  {
  }

  lemma SameTraces(e: Setup, rt: Runtime, w: World, w1: World, w': World, r: Request, now: nat, counted: bool)
    requires SameButCrawlers(w, w1) && Traced(e, rt, w1, w', r, now, counted)
    ensures Traced(e, rt, w, w', r, now, counted)
  {
    assert Asked(rt, w1, r, now) == Asked(rt, w, r, now);
  }

  /** A lookup begins and is noted for 30 seconds when a crawler is claimed and nothing is known; the rate
      counters see what gets as far; the trackers see what is scored, and nothing else; the connection
      counts are left alone. */
  lemma TracesExactly(e: Setup, rt: Runtime, w: World, r: Request, now: nat, ok: bool)
    ensures var w' := Outcome(e, rt, w, r, now, ok).0;
      && w'.conns == w.conns
      && w'.cache == (if Begins(e, rt, w, r, now) then w.cache[r.ip := GoodBot.CacheEntry(GoodBot.Pending, now + 30)]
                      else w.cache)
      && w'.lookups == (if Begins(e, rt, w, r, now)
                        then w.lookups + [GoodBot.Lookup(r.ip, GoodBot.Claim(e.bots, r.ua).value)]
                        else w.lookups)
      && Traced(e, rt, w, w', r, now, Counted(e, rt, w, r, now))
  {
    var (w1, bot) := Crawler(e, rt, w, r, now);
    ListsAgree(e, rt, w, r, now);
    CrawlersAgree(e, rt, w, r, now);
    CrawlerTraces(e, rt, w, r, now);
    if LookedAt(e, rt, w, r, now) && !bot.GoodBotVerified? {
      CheckedTraces(e, rt, w1, r, bot, now, ok);
      SameTraces(e, rt, w, w1, Outcome(e, rt, w, r, now, ok).0, r, now, Counted(e, rt, w, r, now));
    }
  }

  /** What the trackers are shown: the address; path, method and time of day for the behaviour; all three
      of method, path and User-Agent for the replays; the User-Agent, if there is one, for the crowds. */
  lemma ShownToTrackers(rt: Runtime, w: World, r: Request, now: nat)
    ensures var (t, a) := Asked(rt, w, r, now);
            var on := rt.on.trackers;
            var ua := if r.ua == "" then None else Some(r.uaHash);
      && (t.behavior, a.behavior)
         == (if on.behavior
             then Behavior.Observed(w.tables.behavior, r.ip, Behavior.Request(r.pathHash, r.verb, ua, r.ms), now)
             else (w.tables.behavior, []))
      && t.subnet == (if on.subnet then Subnet.Observed(w.tables.subnet, r.ip, rt.caps, now).0 else w.tables.subnet)
      && a.subnet == (if on.subnet then Subnet.Observed(w.tables.subnet, r.ip, rt.caps, now).1 else [])
      && (on.replay ==>
            && t.replay == Signature.ReplayObserved(w.tables.replay, r.ip, r.signature, now).0
            && First(a.replay) == Signature.ReplayObserved(w.tables.replay, r.ip, r.signature, now).1)
      && (!on.replay ==> t.replay == w.tables.replay && a.replay == [])
      && (on.distUa ==>
            && t.distUa == Signature.UaObserved(w.tables.distUa, r.ip, ua, now).0
            && First(a.distUa) == Signature.UaObserved(w.tables.distUa, r.ip, ua, now).1)
      && (!on.distUa ==> t.distUa == w.tables.distUa && a.distUa == [])
      && |a.replay| <= 1 && |a.distUa| <= 1
  {
  }
}
