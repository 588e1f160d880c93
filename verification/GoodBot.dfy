/** Verification of self-declared search crawlers: a cache with a lifetime per entry, filled by DNS
    lookups that finish whenever they finish. */
module GoodBot {
  import opened Net
  import opened Words

  const POSITIVE_TTL: nat := 3600
  const NEGATIVE_TTL: nat := 300
  const PENDING_TTL: nat := 30

  /** A crawler: the token to look for in a lower-cased User-Agent, and the domains it crawls from. */
  datatype Bot = Bot(token: string, suffixes: seq<string>)

  datatype Status = Pending | Verified(bot: nat) | Rejected

  datatype CacheEntry = CacheEntry(status: Status, expiresAt: nat)

  datatype Verdict = NotABot | GoodBotVerified(bot: nat) | GoodBotPending | GoodBotSpoofed(claimed: nat)

  // ---- Claims ----

  function LowerChar(c: char): char {
    if 'A' <= c <= 'Z' then (c as int + 32) as char else c
  }

  function Lower(s: string): string {
    if s == "" then "" else [LowerChar(s[0])] + Lower(s[1..])
  }

  predicate Contains(s: string, sub: string) {
    exists i {:trigger s[i..]} :: 0 <= i <= |s| && sub <= s[i..]
  }

  /** The first crawler in the table, from index i on, that the lower-cased User-Agent names. */
  function FirstClaim(bots: seq<Bot>, lower: string, i: nat): (r: Option<nat>)
    requires i <= |bots|
    ensures match r
      case Some(n) => i <= n < |bots| && Contains(lower, bots[n].token)
                      && forall j | i <= j < n :: !Contains(lower, bots[j].token)
      case None => forall j | i <= j < |bots| :: !Contains(lower, bots[j].token)
    decreases |bots| - i
  {
    if i == |bots| then None
    else if Contains(lower, bots[i].token) then Some(i)
    else FirstClaim(bots, lower, i + 1)
  }

  function Claim(bots: seq<Bot>, ua: string): (r: Option<nat>)
    ensures r.Some? ==> r.value < |bots|
  {
    if ua == "" then None else FirstClaim(bots, Lower(ua), 0)
  }

  /** The text occurs in the User-Agent, upper-case ASCII letters of which count as lower-case ones. */
  ghost predicate Names(ua: string, token: string) {
    exists i: nat {:trigger NamesAt(ua, token, i)} :: NamesAt(ua, token, i)
  }

  predicate NamesAt(ua: string, token: string, i: nat) {
    && i + |token| <= |ua|
    && forall j: nat | j < |token| ::
         token[j] as int == ua[i + j] as int + if 'A' <= ua[i + j] <= 'Z' then 32 else 0
  }

  lemma {:induction false} LowerAt(s: string, i: nat)
    requires i < |s|
    ensures |Lower(s)| == |s| && Lower(s)[i] == LowerChar(s[i])
  {
    if i > 0 { LowerAt(s[1..], i - 1); } else { LowerLength(s); }
  }

  lemma {:induction false} LowerLength(s: string)
    ensures |Lower(s)| == |s|
  {
    if s != "" { LowerLength(s[1..]); }
  }

  lemma NamedThere(ua: string, token: string, i: nat)
    requires i <= |ua|
    ensures |Lower(ua)| == |ua| && (token <= Lower(ua)[i..] <==> NamesAt(ua, token, i))
  {
    LowerLength(ua);
    forall j: nat | i + j < |ua|
      ensures Lower(ua)[i..][j] == LowerChar(ua[i + j])
    {
      LowerAt(ua, i + j);
    }
    if NamesAt(ua, token, i) { assert Lower(ua)[i..][..|token|] == token; }
    if token <= Lower(ua)[i..] {
      forall j: nat | j < |token|
        ensures token[j] as int == ua[i + j] as int + if 'A' <= ua[i + j] <= 'Z' then 32 else 0
      {
        assert token[j] == Lower(ua)[i..][j];
      }
    }
  }

  lemma NamedSomewhere(ua: string, token: string)
    ensures Contains(Lower(ua), token) <==> Names(ua, token)
  {
    LowerLength(ua);
    var lower := Lower(ua);
    if Contains(lower, token) {
      var i :| 0 <= i <= |lower| && token <= lower[i..];
      NamedThere(ua, token, i);
    }
    if Names(ua, token) {
      var i: nat :| NamesAt(ua, token, i);
      NamedThere(ua, token, i);
      assert token <= lower[i..];
    }
  }

  /** A request claims to be the first crawler of the table whose token its User-Agent contains, whatever
      its case, and none if it contains no such token or there is no User-Agent. */
  lemma ClaimExactly(bots: seq<Bot>, ua: string)
    ensures match Claim(bots, ua)
      case Some(n) => ua != "" && Names(ua, bots[n].token) && forall j: nat | j < n :: !Names(ua, bots[j].token)
      case None => ua == "" || forall j: nat | j < |bots| :: !Names(ua, bots[j].token)
  {
    forall j: nat | j < |bots|
      ensures Contains(Lower(ua), bots[j].token) <==> Names(ua, bots[j].token)
    {
      NamedSomewhere(ua, bots[j].token);
    }
  }

  // ---- One lookup ----

  /** What the two DNS queries of a lookup answer: the name of the address, and the addresses of
      that name. `None` stands for a query that fails. */
  datatype Dns = Dns(ptr: Option<string>, hosts: Option<set<IpAddr>>)

  predicate EndsWith(s: string, suffix: string) {
    |suffix| <= |s| && s[|s| - |suffix|..] == suffix
  }

  /** The name lies in one of the domains, and maps back to the address. */
  ghost predicate Passes(ip: IpAddr, suffixes: seq<string>, dns: Dns) {
    && dns.ptr.Some? && dns.hosts.Some? && ip in dns.hosts.value
    && exists i :: 0 <= i < |suffixes| && EndsWith(Lower(dns.ptr.value), suffixes[i])
  }

  /** The text ends in the domain, upper-case ASCII letters of which count as lower-case ones. */
  predicate LiesIn(name: string, domain: string) {
    && |domain| <= |name|
    && forall j: nat | j < |domain| ::
         var c := name[|name| - |domain| + j];
         domain[j] as int == c as int + if 'A' <= c <= 'Z' then 32 else 0
  }

  lemma EndsThere(name: string, domain: string)
    ensures EndsWith(Lower(name), domain) <==> LiesIn(name, domain)
  {
    LowerLength(name);
    var (lower, k) := (Lower(name), |name| - |domain|);
    if |domain| <= |name| {
      forall j: nat | j < |domain|
        ensures lower[k..][j] == LowerChar(name[k + j])
      {
        LowerAt(name, k + j);
      }
      if LiesIn(name, domain) { assert lower[k..] == domain; }
      if EndsWith(lower, domain) { assert forall j: nat | j < |domain| :: domain[j] == lower[k..][j]; }
    }
  }

  /** A lookup passes exactly when both queries are answered, the name of the address lies in one of the
      domains, whatever its case, and the address is among those of the name. */
  lemma PassesExactly(ip: IpAddr, suffixes: seq<string>, dns: Dns)
    ensures Passes(ip, suffixes, dns)
       <==> exists name, hosts, i :: 0 <= i < |suffixes| && dns == Dns(Some(name), Some(hosts)) && ip in hosts
                                     && LiesIn(name, suffixes[i])
  {
    if dns.ptr.Some? {
      forall i | 0 <= i < |suffixes|
        ensures EndsWith(Lower(dns.ptr.value), suffixes[i]) <==> LiesIn(dns.ptr.value, suffixes[i])
      {
        EndsThere(dns.ptr.value, suffixes[i]);
      }
    }
  }

  method VerifyBlocking(ip: IpAddr, suffixes: seq<string>, dns: Dns) returns (passed: bool)
    ensures passed <==> Passes(ip, suffixes, dns)
  {
    if dns.ptr.None? { return false; }
    var ptr := Lower(dns.ptr.value);
    var i := 0;
    var found := false;
    while i < |suffixes| && !found
      invariant i <= |suffixes|
      invariant found <==> exists j :: 0 <= j < i && EndsWith(ptr, suffixes[j])
    {
      found := EndsWith(ptr, suffixes[i]);
      i := i + 1;
    }
    if !found { return false; }
    passed := dns.hosts.Some? && ip in dns.hosts.value;
  }

  // ---- Requests and completions, interleaved ----

  datatype Lookup = Lookup(ip: IpAddr, bot: nat)

  datatype Start = Start(ip: IpAddr, t: nat)

  datatype Done = Done(ip: IpAddr, bot: nat, dns: Dns, t: nat)

  /** `running` are the lookups in flight; `starts` and `dones` are the record of all of them. */
  datatype State = State(cache: map<IpAddr, CacheEntry>, running: seq<Lookup>, starts: seq<Start>, dones: seq<Done>)

  const FRESH := State(map[], [], [], [])

  /** A request is classified; or one of the lookups in flight, any of them, gets its answer. */
  datatype Action = Classify(ip: IpAddr, claim: Option<nat>, t: nat) | Complete(i: nat, dns: Dns, t: nat)

  predicate Live(cache: map<IpAddr, CacheEntry>, ip: IpAddr, t: nat) {
    ip in cache && cache[ip].expiresAt > t
  }

  function VerdictOf(cache: map<IpAddr, CacheEntry>, ip: IpAddr, claim: Option<nat>, t: nat): Verdict {
    if claim.None? then NotABot
    else if !Live(cache, ip, t) then GoodBotPending
    else
      match cache[ip].status
      case Verified(bot) => GoodBotVerified(bot)
      case Rejected => GoodBotSpoofed(claim.value)
      case Pending => GoodBotPending
  }

  /** Does the request start a lookup? */
  predicate Starts(cache: map<IpAddr, CacheEntry>, ip: IpAddr, claim: Option<nat>, t: nat) {
    claim.Some? && !Live(cache, ip, t)
  }

  ghost function Outcome(bots: seq<Bot>, l: Lookup, dns: Dns, t: nat): CacheEntry {
    if l.bot < |bots| && Passes(l.ip, bots[l.bot].suffixes, dns) then CacheEntry(Verified(l.bot), t + POSITIVE_TTL)
    else CacheEntry(Rejected, t + NEGATIVE_TTL)
  }

  ghost function Apply(bots: seq<Bot>, s: State, a: Action): State {
    match a
    case Classify(ip, claim, t) =>
      if !Starts(s.cache, ip, claim, t) then s
      else s.(cache := s.cache[ip := CacheEntry(Pending, t + PENDING_TTL)],
              running := s.running + [Lookup(ip, claim.value)], starts := s.starts + [Start(ip, t)])
    case Complete(i, dns, t) =>
      if i >= |s.running| then s
      else
        var l := s.running[i];
        s.(cache := s.cache[l.ip := Outcome(bots, l, dns, t)],
           running := s.running[..i] + s.running[i + 1..], dones := s.dones + [Done(l.ip, l.bot, dns, t)])
  }

  ghost function After(bots: seq<Bot>, run: seq<Action>, n: nat): State
    requires n <= |run|
  {
    if n == 0 then FRESH else Apply(bots, After(bots, run, n - 1), run[n - 1])
  }

  predicate InOrder(run: seq<Action>) {
    forall i, j | 0 <= i < j < |run| :: run[i].t <= run[j].t
  }

  // ---- What the cache vouches for ----

  /** Done d settles its address as the cache entry says. */
  ghost predicate Backs(bots: seq<Bot>, d: Done, ip: IpAddr, e: CacheEntry, clock: nat) {
    d.ip == ip && d.t <= clock && e == Outcome(bots, Lookup(ip, d.bot), d.dns, d.t)
  }

  /** Every settled entry is backed by a lookup that has finished, and no entry expires before 30
      seconds have passed since any lookup of its address began. */
  ghost predicate Inv(bots: seq<Bot>, s: State, clock: nat) {
    && (forall ip | ip in s.cache && !s.cache[ip].status.Pending? ::
          exists k :: 0 <= k < |s.dones| && Backs(bots, s.dones[k], ip, s.cache[ip], clock))
    && (forall k | 0 <= k < |s.starts| :: s.starts[k].t <= clock && s.starts[k].ip in s.cache
          && s.cache[s.starts[k].ip].expiresAt >= s.starts[k].t + PENDING_TTL)
  }

  /** Lookups of one address begin at least 30 seconds apart. */
  ghost predicate SpacedOut(starts: seq<Start>) {
    forall j, k | 0 <= j < k < |starts| && starts[j].ip == starts[k].ip ::
      starts[k].t >= starts[j].t + PENDING_TTL
  }

  lemma BackedStays(bots: seq<Bot>, s: State, ip: IpAddr, clock: nat, t: nat, more: seq<Done>) returns (k: nat)
    requires Inv(bots, s, clock) && clock <= t && ip in s.cache && !s.cache[ip].status.Pending?
    ensures k < |s.dones + more| && Backs(bots, (s.dones + more)[k], ip, s.cache[ip], t)
  {
    k :| 0 <= k < |s.dones| && Backs(bots, s.dones[k], ip, s.cache[ip], clock);
  }

  lemma ClassifyKeeps(bots: seq<Bot>, s: State, ip: IpAddr, claim: Option<nat>, t: nat, clock: nat)
    requires Inv(bots, s, clock) && clock <= t && SpacedOut(s.starts)
    ensures var s' := Apply(bots, s, Classify(ip, claim, t)); Inv(bots, s', t) && SpacedOut(s'.starts)
  {
    var s' := Apply(bots, s, Classify(ip, claim, t));
    forall a | a in s'.cache && !s'.cache[a].status.Pending?
      ensures exists k :: 0 <= k < |s'.dones| && Backs(bots, s'.dones[k], a, s'.cache[a], t)
    {
      var k := BackedStays(bots, s, a, clock, t, []);
      assert s.dones + [] == s'.dones;
    }
  }

  lemma CompleteKeeps(bots: seq<Bot>, s: State, i: nat, dns: Dns, t: nat, clock: nat)
    requires Inv(bots, s, clock) && clock <= t && SpacedOut(s.starts)
    ensures var s' := Apply(bots, s, Complete(i, dns, t)); Inv(bots, s', t) && SpacedOut(s'.starts)
  {
    var s' := Apply(bots, s, Complete(i, dns, t));
    var more := if i < |s.running| then [Done(s.running[i].ip, s.running[i].bot, dns, t)] else [];
    assert s'.dones == s.dones + more;
    forall a | a in s'.cache && !s'.cache[a].status.Pending?
      ensures exists k :: 0 <= k < |s'.dones| && Backs(bots, s'.dones[k], a, s'.cache[a], t)
    {
      if i < |s.running| && a == s.running[i].ip {
        assert Backs(bots, s'.dones[|s.dones|], a, s'.cache[a], t);
      } else {
        var k := BackedStays(bots, s, a, clock, t, more);
      }
    }
  }

  lemma {:induction false} RunKeeps(bots: seq<Bot>, run: seq<Action>, n: nat)
    requires InOrder(run) && n <= |run|
    ensures Inv(bots, After(bots, run, n), if n == 0 then 0 else run[n - 1].t)
    ensures SpacedOut(After(bots, run, n).starts)
  {
    if n > 0 {
      RunKeeps(bots, run, n - 1);
      var clock := if n == 1 then 0 else run[n - 2].t;
      match run[n - 1]
      case Classify(ip, claim, t) => ClassifyKeeps(bots, After(bots, run, n - 1), ip, claim, t, clock);
      case Complete(i, dns, t) => CompleteKeeps(bots, After(bots, run, n - 1), i, dns, t, clock);
    }
  }

  /** The address passed a lookup against crawler n's domains, completed less than an hour ago. */
  ghost predicate Vouched(bots: seq<Bot>, dones: seq<Done>, ip: IpAddr, n: nat, t: nat) {
    && n < |bots|
    && (exists k :: 0 <= k < |dones| && dones[k].ip == ip && dones[k].bot == n
                    && dones[k].t <= t < dones[k].t + POSITIVE_TTL && Passes(ip, bots[n].suffixes, dones[k].dns))
  }

  /** The address failed a lookup against some crawler's domains, completed less than five minutes ago. */
  ghost predicate Refuted(bots: seq<Bot>, dones: seq<Done>, ip: IpAddr, t: nat) {
    exists k :: 0 <= k < |dones| && dones[k].ip == ip && dones[k].t <= t < dones[k].t + NEGATIVE_TTL
      && !(dones[k].bot < |bots| && Passes(ip, bots[dones[k].bot].suffixes, dones[k].dns))
  }

  /** However requests and completions interleave, an address taken for crawler n has been vouched
      for as n, and an address taken for a spoofer has been refuted. */
  lemma VerdictsAreEarned(bots: seq<Bot>, run: seq<Action>, ip: IpAddr, claim: Option<nat>, t: nat)
    requires InOrder(run) && forall i | 0 <= i < |run| :: run[i].t <= t
    ensures var s := After(bots, run, |run|);
            var v := VerdictOf(s.cache, ip, claim, t);
      && (v.GoodBotVerified? ==> Vouched(bots, s.dones, ip, v.bot, t))
      && (v.GoodBotSpoofed? ==> Refuted(bots, s.dones, ip, t))
  {
    RunKeeps(bots, run, |run|);
    var s := After(bots, run, |run|);
    var v := VerdictOf(s.cache, ip, claim, t);
    if v.GoodBotVerified? || v.GoodBotSpoofed? {
      var clock := run[|run| - 1].t;
      var k :| 0 <= k < |s.dones| && Backs(bots, s.dones[k], ip, s.cache[ip], clock);
    }
  }

  /** Whatever User-Agents an address rotates through, its lookups begin at least 30 seconds apart. */
  lemma LookupsSpacedOut(bots: seq<Bot>, run: seq<Action>, j: nat, k: nat)
    requires InOrder(run)
    requires var starts := After(bots, run, |run|).starts; j < k < |starts| && starts[j].ip == starts[k].ip
    ensures var starts := After(bots, run, |run|).starts; starts[k].t >= starts[j].t + PENDING_TTL
  {
    RunKeeps(bots, run, |run|);
  }

  // ---- For how long ----

  /** The answer of a lookup settles its address at once: as the crawler for an hour if it passes, as a
      spoofer, of whatever it claims to be, for five minutes if not; after that nothing is known again. */
  lemma AnswerSettles(bots: seq<Bot>, s: State, i: nat, dns: Dns, t: nat, claim: nat, now: nat)
    requires i < |s.running| && s.running[i].bot < |bots| && t <= now
    ensures var l := s.running[i];
            var passes := Passes(l.ip, bots[l.bot].suffixes, dns);
            var cache := Apply(bots, s, Complete(i, dns, t)).cache;
      && VerdictOf(cache, l.ip, Some(claim), now)
         == (if now >= t + (if passes then 3600 else 300) then GoodBotPending
             else if passes then GoodBotVerified(l.bot) else GoodBotSpoofed(claim))
      && (Starts(cache, l.ip, Some(claim), now) <==> now >= t + if passes then 3600 else 300)
      && VerdictOf(cache, l.ip, None, now) == NotABot
      && forall a | a != l.ip :: (a in cache <==> a in s.cache) && (a in cache ==> cache[a] == s.cache[a])
  {
  }

  /** A request that starts a lookup has the address pending; if no answer comes, the next lookup starts
      with the first claim after 30 seconds. */
  lemma PendingLasts(bots: seq<Bot>, s: State, ip: IpAddr, claim: nat, t: nat, claim': nat, now: nat)
    requires Starts(s.cache, ip, Some(claim), t) && t <= now
    ensures var s' := Apply(bots, s, Classify(ip, Some(claim), t));
      && s'.running == s.running + [Lookup(ip, claim)]
      && VerdictOf(s'.cache, ip, Some(claim'), now) == GoodBotPending
      && (Starts(s'.cache, ip, Some(claim'), now) <==> now >= t + 30)
  {
  }

  /** While it is settled and no lookup of it is under way, nothing changes what is known of an address. */
  lemma {:induction false} SettledStays(bots: seq<Bot>, s: State, run: seq<Action>, n: nat, ip: IpAddr)
    requires n <= |run| && ip in s.cache && forall l | l in s.running :: l.ip != ip
    requires forall i | 0 <= i < n :: run[i].t < s.cache[ip].expiresAt
    ensures var s' := AfterFrom(bots, s, run, n);
      ip in s'.cache && s'.cache[ip] == s.cache[ip] && forall l | l in s'.running :: l.ip != ip
  {
    if n > 0 { SettledStays(bots, s, run, n - 1, ip); }
  }

  ghost function AfterFrom(bots: seq<Bot>, s: State, run: seq<Action>, n: nat): State
    requires n <= |run|
  {
    if n == 0 then s else Apply(bots, AfterFrom(bots, s, run, n - 1), run[n - 1])
  }

  // ---- When a spoofer is no spoofer ----

  /** The latest answer there is for an address. */
  function Latest(dones: seq<Done>, ip: IpAddr): Option<Done> {
    if dones == [] then None
    else if dones[|dones| - 1].ip == ip then Some(dones[|dones| - 1])
    else Latest(dones[..|dones| - 1], ip)
  }

  /** Claims name crawlers of the table. */
  predicate Claims(bots: seq<Bot>, run: seq<Action>) {
    forall i | 0 <= i < |run| && run[i].Classify? && run[i].claim.Some? :: run[i].claim.value < |bots|
  }

  /** Each settled entry is the outcome of the latest answer for its address, and all lookups are of
      crawlers of the table. */
  ghost predicate Settled(bots: seq<Bot>, s: State) {
    && (forall l | l in s.running :: l.bot < |bots|)
    && (forall d | d in s.dones :: d.bot < |bots|)
    && (forall ip | ip in s.cache && !s.cache[ip].status.Pending? ::
          var d := Latest(s.dones, ip);
          d.Some? && s.cache[ip] == Outcome(bots, Lookup(ip, d.value.bot), d.value.dns, d.value.t))
  }

  lemma {:induction false} LatestIn(dones: seq<Done>, ip: IpAddr)
    ensures Latest(dones, ip).Some? ==> Latest(dones, ip).value in dones && Latest(dones, ip).value.ip == ip
  {
    if dones != [] { LatestIn(dones[..|dones| - 1], ip); }
  }

  lemma StepSettled(bots: seq<Bot>, s: State, a: Action)
    requires Settled(bots, s) && Claims(bots, [a])
    ensures Settled(bots, Apply(bots, s, a))
  {
    assert [a][0] == a;
    if a.Complete? && a.i < |s.running| {
      var l := s.running[a.i];
      var d := Done(l.ip, l.bot, a.dns, a.t);
      assert (s.dones + [d])[..|s.dones|] == s.dones;
    }
  }

  lemma {:induction false} RunSettled(bots: seq<Bot>, run: seq<Action>, n: nat)
    requires Claims(bots, run) && n <= |run|
    ensures Settled(bots, After(bots, run, n))
  {
    if n > 0 {
      RunSettled(bots, run, n - 1);
      assert Claims(bots, [run[n - 1]]);
      StepSettled(bots, After(bots, run, n - 1), run[n - 1]);
    }
  }

  /** Whenever an address is called a spoofer of crawler b, the latest answer for it does not pass
      against b's domains. */
  ghost predicate Fair(bots: seq<Bot>) {
    forall run: seq<Action>, ip: IpAddr, b: nat, t: nat |
        && InOrder(run) && Claims(bots, run) && (forall i | 0 <= i < |run| :: run[i].t <= t) && b < |bots|
        && VerdictOf(After(bots, run, |run|).cache, ip, Some(b), t) == GoodBotSpoofed(b)
      :: var d := Latest(After(bots, run, |run|).dones, ip);
         d.Some? && !Passes(ip, bots[b].suffixes, d.value.dns)
  }

  /** An answer that passes for one crawler passes for all. */
  ghost predicate Interchangeable(bots: seq<Bot>) {
    forall a: nat, b: nat, ip: IpAddr, dns: Dns |
        a < |bots| && b < |bots| && Passes(ip, bots[b].suffixes, dns)
      :: Passes(ip, bots[a].suffixes, dns)
  }

  /** The verdict is per address, not per claim: an address whose lookup as crawler a failed is called
      a spoofer when it next claims to be b, though the answer was never held against b's domains. */
  lemma SpoofedUnasked(bots: seq<Bot>, ip: IpAddr, a: nat, b: nat, dns: Dns, t: nat, t': nat)
    requires a < |bots| && !Passes(ip, bots[a].suffixes, dns) && t <= t' < t + NEGATIVE_TTL
    requires b != a
    ensures var run := [Classify(ip, Some(a), t), Complete(0, dns, t)];
            var s := After(bots, run, 2);
      && VerdictOf(s.cache, ip, Some(b), t') == GoodBotSpoofed(b) && s.dones == [Done(ip, a, dns, t)]
      && forall k | 0 <= k < |s.dones| :: s.dones[k].bot != b
  {
    var run := [Classify(ip, Some(a), t), Complete(0, dns, t)];
    assert After(bots, run, 0) == FRESH;
    assert After(bots, run, 1).running == [Lookup(ip, a)];
  }

  lemma VerdictIsFair(bots: seq<Bot>, run: seq<Action>, ip: IpAddr, b: nat, t: nat)
    requires Interchangeable(bots) && Claims(bots, run) && b < |bots|
    requires VerdictOf(After(bots, run, |run|).cache, ip, Some(b), t) == GoodBotSpoofed(b)
    ensures var d := Latest(After(bots, run, |run|).dones, ip);
      d.Some? && !Passes(ip, bots[b].suffixes, d.value.dns)
  {
    var s := After(bots, run, |run|);
    RunSettled(bots, run, |run|);
    LatestIn(s.dones, ip);
    var d := Latest(s.dones, ip).value;
    assert !Passes(ip, bots[d.bot].suffixes, d.dns);
  }

  /** Spoofers are called so fairly, over all runs, exactly when all crawlers of the table accept the
      same answers. */
  lemma FairExactly(bots: seq<Bot>)
    ensures Fair(bots) <==> Interchangeable(bots)
  {
    if Interchangeable(bots) {
      forall run: seq<Action>, ip: IpAddr, b: nat, t: nat |
          && InOrder(run) && Claims(bots, run) && (forall i | 0 <= i < |run| :: run[i].t <= t) && b < |bots|
          && VerdictOf(After(bots, run, |run|).cache, ip, Some(b), t) == GoodBotSpoofed(b)
        ensures var d := Latest(After(bots, run, |run|).dones, ip);
          d.Some? && !Passes(ip, bots[b].suffixes, d.value.dns)
      {
        VerdictIsFair(bots, run, ip, b, t);
      }
    } else {
      var a: nat, b: nat, ip: IpAddr, dns: Dns :|
        a < |bots| && b < |bots| && Passes(ip, bots[b].suffixes, dns) && !Passes(ip, bots[a].suffixes, dns);
      Accused(bots, ip, a, b, dns);
    }
  }

  lemma Accused(bots: seq<Bot>, ip: IpAddr, a: nat, b: nat, dns: Dns)
    requires a < |bots| && b < |bots| && Passes(ip, bots[b].suffixes, dns) && !Passes(ip, bots[a].suffixes, dns)
    ensures !Fair(bots)
  {
    var run := Accusation(ip, a, dns);
    AccusationRuns(bots, ip, a, b, dns);
    assert VerdictOf(After(bots, run, |run|).cache, ip, Some(b), 0) == GoodBotSpoofed(b);
  }

  /** A claim to be a and its answer, both in second 0. */
  function Accusation(ip: IpAddr, a: nat, dns: Dns): seq<Action> {
    [Classify(ip, Some(a), 0), Complete(0, dns, 0)]
  }

  lemma AccusationRuns(bots: seq<Bot>, ip: IpAddr, a: nat, b: nat, dns: Dns)
    requires a < |bots| && !Passes(ip, bots[a].suffixes, dns) && b != a
    ensures var run := Accusation(ip, a, dns);
            var s := After(bots, run, |run|);
      && InOrder(run) && Claims(bots, run) && (forall i | 0 <= i < |run| :: run[i].t <= 0)
      && VerdictOf(s.cache, ip, Some(b), 0) == GoodBotSpoofed(b) && Latest(s.dones, ip) == Some(Done(ip, a, dns, 0))
  {
    SpoofedUnasked(bots, ip, a, b, dns, 0, 0);
  }

  lemma {:induction false} LowerStays(s: string)
    requires forall i | 0 <= i < |s| :: !('A' <= s[i] <= 'Z')
    ensures Lower(s) == s
  {
    if s != "" { LowerStays(s[1..]); }
  }

  lemma TailsDiffer(name: string, domain: string, k: nat)
    requires |domain| <= |name| && k < |domain| && name[|name| - |domain| + k] != domain[k]
    ensures !EndsWith(name, domain)
  {
    assert name[|name| - |domain|..][k] == name[|name| - |domain| + k];
  }

  /** The name of a crawler that lies in one domain of the first entry and not in the other. */
  lemma Elsewhere(name: string, first: string, second: string)
    requires first == ".googlebot.com" && second == ".google.com" && name == "crawl" + first
    ensures EndsWith(name, first) && !EndsWith(name, second)
  {
    assert name[5..] == first;
    TailsDiffer(name, second, 0);
  }

  lemma OneDomainOfTwo(bots: seq<Bot>, name: string, first: string, second: string)
    requires |bots| >= 2 && bots[0].suffixes == [first, second] && bots[1].suffixes == [second]
    requires EndsWith(name, first) && !EndsWith(name, second) && Lower(name) == name
    ensures !Fair(bots)
  {
    var ip := V4(192, 0, 2, 1);
    var dns := Dns(Some(name), Some({ip}));
    assert EndsWith(Lower(dns.ptr.value), bots[0].suffixes[0]);
    Accused(bots, ip, 1, 0, dns);
  }

  /** The first two entries of the table the source has. */
  predicate StartsLikeSource(bots: seq<Bot>) {
    && |bots| >= 2
    && bots[0] == Bot("googlebot", [".googlebot.com", ".google.com"])
    && bots[1] == Bot("google-inspectiontool", [".google.com"])
  }

  /** Which makes it unfair, whatever else is in it: a name under .googlebot.com passes for the first
      and not for the second. */
  lemma SourceTableUnfair(bots: seq<Bot>)
    requires StartsLikeSource(bots)
    ensures !Fair(bots)
  {
    var name := "crawl" + ".googlebot.com";
    Elsewhere(name, ".googlebot.com", ".google.com");
    LowerStays(name);
    OneDomainOfTwo(bots, name, ".googlebot.com", ".google.com");
  }

  // ---- The running cache ----

  class GoodBotVerifier {
    const bots: seq<Bot>
    var cache: map<IpAddr, CacheEntry>

    constructor (bots: seq<Bot>)
      ensures this.bots == bots && cache == map[]
    {
      this.bots := bots;
      cache := map[];
    }

    /** `spawn` is the crawler to look the address up for, if a lookup is to begin. */
    method Classify(ip: IpAddr, ua: string, now: nat) returns (v: Verdict, spawn: Option<nat>)
      modifies this
      ensures var claim := Claim(bots, ua);
        && v == VerdictOf(old(cache), ip, claim, now)
        && (spawn.Some? <==> Starts(old(cache), ip, claim, now)) && (spawn.Some? ==> spawn == claim)
        && cache == if spawn.Some? then old(cache)[ip := CacheEntry(Pending, now + PENDING_TTL)] else old(cache)
    {
      if ua == "" { return NotABot, None; }
      var bot := FirstClaim(bots, Lower(ua), 0);
      if bot.None? { return NotABot, None; }
      if ip in cache {
        var e := cache[ip];
        if e.expiresAt > now {
          match e.status
          case Verified(n) => return GoodBotVerified(n), None;
          case Rejected => return GoodBotSpoofed(bot.value), None;
          case Pending => return GoodBotPending, None;
        }
      }
      cache := cache[ip := CacheEntry(Pending, now + PENDING_TTL)];
      return GoodBotPending, bot;
    }

    /** The end of a spawned lookup. */
    method Complete(l: Lookup, dns: Dns, now: nat)
      requires l.bot < |bots|
      modifies this
      ensures cache == old(cache)[l.ip := Outcome(bots, l, dns, now)]
    {
      var passed := VerifyBlocking(l.ip, bots[l.bot].suffixes, dns);
      cache := cache[l.ip := if passed then CacheEntry(Verified(l.bot), now + POSITIVE_TTL)
                                       else CacheEntry(Rejected, now + NEGATIVE_TTL)];
    }
  }
}
