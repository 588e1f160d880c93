/** Static allow and deny lists plus the auto-ban machine: tumbling windows of offences anchored at
    the first one, bans with an expiry, forced bans, and a file that carries bans over a restart. */
module Reputation {
  import opened Net
  import opened Words
  import Sweep
  import Window

  /** `allow` and `deny` are the addresses the configured CIDR lists cover. */
  datatype Config = Config(allow: iset<IpAddr>, deny: iset<IpAddr>, threshold: nat, window: nat, duration: nat)

  predicate Sane(c: Config) {
    1 <= c.threshold <= U32_MAX && 1 <= c.window && 1 <= c.duration
  }

  datatype HitState = HitState(hits: nat, firstHit: nat, banUntil: nat)

  const BLANK := HitState(0, 0, 0)

  datatype Standing = Allow | Deny | Unknown

  // ---- One address ----

  /** Is the window anchored at firstHit still the one an offence at `now` falls in? */
  predicate Open(c: Config, s: HitState, now: nat) {
    s.firstHit != 0 && SatSub(now, s.firstHit) <= c.window
  }

  /** The state after counting an offence, before any ban. */
  function Counted(c: Config, s: HitState, now: nat): HitState {
    var w := if Open(c, s, now) then s else s.(firstHit := now, hits := 0);
    w.(hits := SatAdd32(w.hits, 1))
  }

  predicate NewlyBans(c: Config, s: HitState, now: nat) {
    Counted(c, s, now).hits >= c.threshold && s.banUntil <= now
  }

  function Offended(c: Config, s: HitState, now: nat): HitState {
    if NewlyBans(c, s, now) then Counted(c, s, now).(banUntil := now + c.duration) else Counted(c, s, now)
  }

  function Forced(c: Config, s: HitState, now: nat, secs: nat): HitState {
    s.(banUntil := Max(s.banUntil, now + secs), hits := SatAdd32(s.hits, c.threshold))
  }

  function Lifted(s: HitState): HitState {
    s.(banUntil := 0, hits := 0)
  }

  /** Does a sweep drop the entry? */
  predicate Drops(c: Config, s: HitState, now: nat) {
    s.banUntil <= now && SatSub(now, s.firstHit) >= c.window * 2
  }

  predicate Banned(s: HitState, now: nat) {
    s.banUntil > now
  }

  // ---- How long a ban lasts ----

  /** An offence that bans at t bans for exactly the configured time; one that does not leaves the ban, if
      one is on, as it is. */
  lemma OffenceBansFor(c: Config, s: HitState, t: nat, now: nat)
    requires now >= t
    ensures NewlyBans(c, s, t) ==> (Banned(Offended(c, s, t), now) <==> now < t + c.duration)
    ensures !NewlyBans(c, s, t) ==> (Banned(Offended(c, s, t), now) <==> Banned(s, now))
  {
  }

  /** It bans exactly when no ban is on and it is the T-th hit of a window, the hits of the window open so
      far included if that was opened at most W seconds ago. */
  lemma OffenceBansWhen(c: Config, s: HitState, t: nat)
    requires s.hits < U32_MAX
    ensures NewlyBans(c, s, t)
       <==> !Banned(s, t) && (if s.firstHit != 0 && t <= s.firstHit + c.window then s.hits + 1 >= c.threshold
                              else c.threshold <= 1)
  {
  }

  /** A forced ban lasts for the time asked for, or as long as the ban already on if that is longer. */
  lemma ForceBansFor(c: Config, s: HitState, t: nat, secs: nat, now: nat)
    requires now >= t
    ensures Banned(Forced(c, s, t, secs), now) <==> now < t + secs || Banned(s, now)
  {
  }

  /** A pardon ends it at once, and the hits on record with it; the window stays open. */
  lemma PardonEnds(c: Config, s: HitState, now: nat)
    ensures !Banned(Lifted(s), now) && Lifted(s).hits == 0 && (Open(c, Lifted(s), now) <==> Open(c, s, now))
  {
  }

  /** A sweep drops an entry exactly when no ban is on and its window began two windows ago or longer. */
  lemma SweepDrops(c: Config, s: HitState, now: nat)
    requires s.firstHit <= now
    ensures Drops(c, s, now) <==> !Banned(s, now) && now - s.firstHit >= 2 * c.window
  {
  }

  // ---- Completeness: enough offences within one window's length ban ----

  datatype Op = Offence(t: nat) | Force(t: nat, secs: nat) | Unban(t: nat) | Gc(t: nat)

  function Step(c: Config, s: HitState, op: Op): HitState {
    match op
    case Offence(t) => Offended(c, s, t)
    case Force(t, secs) => Forced(c, s, t, secs)
    case Unban(_) => Lifted(s)
    case Gc(t) => if Drops(c, s, t) then BLANK else s
  }

  function StateAt(c: Config, s: HitState, ops: seq<Op>, n: nat): HitState
    requires n <= |ops|
  {
    if n == 0 then s else Step(c, StateAt(c, s, ops, n - 1), ops[n - 1])
  }

  function Offences(ops: seq<Op>, n: nat): nat
    requires n <= |ops|
  {
    if n == 0 then 0 else Offences(ops, n - 1) + (if ops[n - 1].Offence? then 1 else 0)
  }

  /** The clock runs forwards from t0, and the whole run fits in one window's length. */
  ghost predicate Span(c: Config, ops: seq<Op>, t0: nat) {
    && (forall i | 0 <= i < |ops| :: t0 <= ops[i].t <= t0 + c.window)
    && (forall i, j | 0 <= i < j < |ops| :: ops[i].t <= ops[j].t)
  }

  ghost predicate NeverBanned(c: Config, s: HitState, ops: seq<Op>, n: nat)
    requires n <= |ops|
  {
    forall i | 0 <= i < n && ops[i].Offence? :: !Banned(StateAt(c, s, ops, i + 1), ops[i].t)
  }

  /** While no offence has ended in a ban: a of them fell in the window open at the start, b in the
      one opened since, and a span of one window's length meets no third. `e` hits were on record
      already. */
  ghost predicate TwoWindows(c: Config, s: HitState, t0: nat, e: nat, a: nat, b: nat) {
    && (a > 0 ==> a + e < c.threshold) && b < c.threshold
    && (b == 0 ==> a + e <= s.hits || s.firstHit == 0)
    && (b > 0 ==> s.firstHit >= t0 && b <= s.hits)
  }

  lemma TwoWindowsStep(c: Config, s: HitState, op: Op, t0: nat, e: nat, a: nat, b: nat) returns (a': nat, b': nat)
    requires Sane(c) && t0 > 0 && t0 <= op.t <= t0 + c.window && !op.Unban?
    requires TwoWindows(c, s, t0, e, a, b) && e <= 1
    requires op.Offence? ==> !Banned(Step(c, s, op), op.t)
    ensures TwoWindows(c, Step(c, s, op), t0, e, a', b')
    ensures a' + b' == a + b + (if op.Offence? then 1 else 0)
  {
    a', b' := a, b;
    if op.Offence? {
      if Open(c, s, op.t) && b == 0 { a' := a + 1; } else { b' := b + 1; }
    }
  }

  lemma {:induction false} TwoWindowsRun(c: Config, s: HitState, ops: seq<Op>, t0: nat, e: nat, n: nat)
      returns (a: nat, b: nat)
    requires Sane(c) && t0 > 0 && Span(c, ops, t0) && n <= |ops|
    requires e <= 1 && (s.firstHit == 0 || e <= s.hits)
    requires forall i | 0 <= i < n :: !ops[i].Unban?
    requires NeverBanned(c, s, ops, n)
    ensures TwoWindows(c, StateAt(c, s, ops, n), t0, e, a, b) && a + b == Offences(ops, n)
  {
    if n == 0 {
      a, b := 0, 0;
    } else {
      a, b := TwoWindowsRun(c, s, ops, t0, e, n - 1);
      a, b := TwoWindowsStep(c, StateAt(c, s, ops, n - 1), ops[n - 1], t0, e, a, b);
    }
  }

  /** From any state whatever, 2T - 1 offences within one window's length, with forced bans and
      sweeps anywhere between them, leave the address banned at one of them. When the open window
      has a hit on record (e = 1), as it always has unless an unban cleared it, 2T - 2 do. */
  lemma EnoughOffencesBan(c: Config, s: HitState, ops: seq<Op>, t0: nat, e: nat)
    requires Sane(c) && t0 > 0 && Span(c, ops, t0)
    requires forall i | 0 <= i < |ops| :: !ops[i].Unban?
    requires e <= 1 && (s.firstHit == 0 || e <= s.hits) && (e == 1 ==> c.threshold >= 2)
    requires Offences(ops, |ops|) >= 2 * c.threshold - 1 - e
    ensures exists i :: 0 <= i < |ops| && ops[i].Offence? && Banned(StateAt(c, s, ops, i + 1), ops[i].t)
  {
    if NeverBanned(c, s, ops, |ops|) {
      var a, b := TwoWindowsRun(c, s, ops, t0, e, |ops|);
    }
  }

  lemma HasHitStep(c: Config, s: HitState, op: Op)
    requires !op.Unban? && (s.firstHit == 0 || s.hits >= 1)
    ensures var t := Step(c, s, op); t.firstHit == 0 || t.hits >= 1
  {
  }

  /** The condition for e = 1 is met throughout by every address that is not unbanned. */
  lemma {:induction false} OpenWindowHasHit(c: Config, s: HitState, ops: seq<Op>, n: nat)
    requires n <= |ops| && (s.firstHit == 0 || s.hits >= 1)
    requires forall i | 0 <= i < n :: !ops[i].Unban?
    ensures var t := StateAt(c, s, ops, n); t.firstHit == 0 || t.hits >= 1
  {
    if n > 0 {
      OpenWindowHasHit(c, s, ops, n - 1);
      HasHitStep(c, StateAt(c, s, ops, n - 1), ops[n - 1]);
    }
  }

  /** The worst case: as many offences as the old window bears, then as many as the next one does. */
  function Straddling(c: Config, e: nat): seq<Op>
    requires e < c.threshold
  {
    seq(2 * c.threshold - 2 - e, i => Offence(if i < c.threshold - 1 - e then 1 + c.window else 2 + c.window))
  }

  lemma {:induction false} StraddlingState(c: Config, e: nat, n: nat)
    requires Sane(c) && e <= 1 && c.threshold >= 2 && n <= |Straddling(c, e)|
    ensures var first := c.threshold - 1 - e;
      StateAt(c, HitState(e, 1, 0), Straddling(c, e), n)
      == if n <= first then HitState(e + n, 1, 0) else HitState(n - first, 2 + c.window, 0)
  {
    if n > 0 { StraddlingState(c, e, n - 1); }
  }

  /** How an address comes to the state a straddling run starts from: one offence, which for
      e = 0 is then pardoned. */
  function Prelude(e: nat): seq<Op> {
    if e == 0 then [Offence(1), Unban(1)] else [Offence(1)]
  }

  lemma PreludeState(c: Config, e: nat)
    requires Sane(c) && e <= 1 && c.threshold >= 2
    ensures StateAt(c, BLANK, Prelude(e), |Prelude(e)|) == HitState(e, 1, 0)
  {
    assert StateAt(c, BLANK, Prelude(e), 0) == BLANK;
    assert StateAt(c, BLANK, Prelude(e), 1) == HitState(1, 1, 0);
  }

  lemma StraddlingUnbanned(c: Config, e: nat)
    requires Sane(c) && e <= 1 && c.threshold >= 2
    ensures var ops := Straddling(c, e); NeverBanned(c, HitState(e, 1, 0), ops, |ops|)
  {
    var ops := Straddling(c, e);
    forall i | 0 <= i < |ops|
      ensures !Banned(StateAt(c, HitState(e, 1, 0), ops, i + 1), ops[i].t)
    {
      StraddlingState(c, e, i + 1);
    }
  }

  /** One offence fewer does not do: some address takes 2T - 2 - e of them in two seconds unbanned. */
  lemma FewerOffencesDoNot(c: Config, e: nat)
    requires Sane(c) && e <= 1 && c.threshold >= 2
    ensures var s := StateAt(c, BLANK, Prelude(e), |Prelude(e)|);
            var ops := Straddling(c, e);
      && Span(c, ops, 1 + c.window) && Offences(ops, |ops|) == 2 * c.threshold - 2 - e
      && NeverBanned(c, s, ops, |ops|)
  {
    AllOffences(Straddling(c, e), |Straddling(c, e)|);
    PreludeState(c, e);
    StraddlingUnbanned(c, e);
  }

  lemma {:induction false} AllOffences(ops: seq<Op>, n: nat)
    requires n <= |ops| && forall i | 0 <= i < n :: ops[i].Offence?
    ensures Offences(ops, n) == n
  {
    if n > 0 { AllOffences(ops, n - 1); }
  }

  // ---- Soundness: no ban without enough offences ----

  /** The times of the offences among the first n operations. */
  function OffenceTimes(ops: seq<Op>, n: nat): seq<nat>
    requires n <= |ops|
  {
    if n == 0 then [] else OffenceTimes(ops, n - 1) + (if ops[n - 1].Offence? then [ops[n - 1].t] else [])
  }

  /** Does the operation start the count of hits afresh? An offence outside the open window does, and
      so do an unban and a sweep that drops the entry. */
  predicate Clears(c: Config, s: HitState, op: Op) {
    match op
    case Offence(t) => !Open(c, s, t)
    case Force(_, _) => false
    case Unban(_) => true
    case Gc(t) => Drops(c, s, t)
  }

  /** The latest of the first n operations that started the count afresh; 0 if none has. */
  function LastCleared(c: Config, ops: seq<Op>, n: nat): (k: nat)
    requires n <= |ops|
    ensures k <= n && (n > 0 ==> k < n)
  {
    if n == 0 then 0
    else if Clears(c, StateAt(c, BLANK, ops, n - 1), ops[n - 1]) then n - 1
    else LastCleared(c, ops, n - 1)
  }

  predicate InOrder(ops: seq<Op>) {
    forall i, j | 0 <= i < j < |ops| :: ops[i].t <= ops[j].t
  }

  lemma {:induction false} AnchorInPast(c: Config, ops: seq<Op>, n: nat, now: nat)
    requires n <= |ops| && InOrder(ops) && forall i | 0 <= i < n :: ops[i].t <= now
    ensures StateAt(c, BLANK, ops, n).firstHit <= now
  {
    if n > 0 { AnchorInPast(c, ops, n - 1, now); }
  }

  /** The hits on record were all made since the anchor of the window, unless a forced ban came since
      the count last started. */
  lemma {:induction false} HitsAreLogged(c: Config, ops: seq<Op>, n: nat, now: nat)
    requires n <= |ops| && InOrder(ops) && forall i | 0 <= i < n :: ops[i].t <= now
    requires forall i | LastCleared(c, ops, n) <= i < n :: !ops[i].Force?
    ensures StateAt(c, BLANK, ops, n).hits
         <= Window.TimesIn(OffenceTimes(ops, n), StateAt(c, BLANK, ops, n).firstHit, now)
  {
    if n > 0 {
      var (s, log, op) := (StateAt(c, BLANK, ops, n - 1), OffenceTimes(ops, n - 1), ops[n - 1]);
      if Clears(c, s, op) {
        ClearedStep(c, s, op, log, now);
      } else {
        HitsAreLogged(c, ops, n - 1, now);
        AnchorInPast(c, ops, n - 1, op.t);
        LoggedStep(c, s, op, log, now);
      }
    }
  }

  lemma ClearedStep(c: Config, s: HitState, op: Op, log: seq<nat>, now: nat)
    requires Clears(c, s, op) && op.t <= now
    ensures var (s', log') := (Step(c, s, op), log + (if op.Offence? then [op.t] else []));
      s'.hits <= Window.TimesIn(log', s'.firstHit, now)
  {
    if op.Offence? { Window.TimesSnoc(log, op.t, op.t, now); }
  }

  lemma LoggedStep(c: Config, s: HitState, op: Op, log: seq<nat>, now: nat)
    requires !op.Force? && s.firstHit <= op.t <= now && s.hits <= Window.TimesIn(log, s.firstHit, now)
    requires !Clears(c, s, op)
    ensures var (s', log') := (Step(c, s, op), log + (if op.Offence? then [op.t] else []));
      s'.hits <= Window.TimesIn(log', s'.firstHit, now)
  {
    if op.Offence? {
      Window.TimesSnoc(log, op.t, s.firstHit, now);
    } else {
      assert log + [] == log;
    }
  }

  /** With no forced ban since the count last started, an offence at t brings a new ban only if at
      least T offences were made in the W seconds up to it. */
  lemma BansAreEarned(c: Config, ops: seq<Op>, n: nat)
    requires n < |ops| && ops[n].Offence? && InOrder(ops)
    requires forall i | LastCleared(c, ops, n + 1) <= i < n :: !ops[i].Force?
    requires NewlyBans(c, StateAt(c, BLANK, ops, n), ops[n].t)
    ensures Window.TimesIn(OffenceTimes(ops, n + 1), ops[n].t - c.window, ops[n].t) >= c.threshold
  {
    var t := ops[n].t;
    HitsAreLogged(c, ops, n + 1, t);
    AnchorInPast(c, ops, n, t);
    TimesGrow(OffenceTimes(ops, n + 1), StateAt(c, BLANK, ops, n + 1).firstHit, t, t - c.window);
  }

  /** A forced ban that has run out makes the next offence ban exactly when the window that was open
      before it still is, or one offence is enough anyway. */
  lemma ForcedBanCounts(c: Config, s: HitState, tf: nat, secs: nat, t: nat)
    requires Sane(c) && tf <= t && s.banUntil <= t && tf + secs <= t
    ensures NewlyBans(c, Forced(c, s, tf, secs), t) <==> c.threshold == 1 || Open(c, s, t)
  {
  }

  lemma TimesGrow(log: seq<nat>, lo: int, hi: int, lo': int)
    requires lo' <= lo
    ensures Window.TimesIn(log, lo, hi) <= Window.TimesIn(log, lo', hi)
  {
    Window.SubsetSize(set i | 0 <= i < |log| && lo <= log[i] <= hi, set i | 0 <= i < |log| && lo' <= log[i] <= hi);
  }

  /** So a forced ban counts as T hits that were never made: with the default settings one later
      offence bans again, on two offences in all. */
  lemma ForcedBansInflate(c: Config)
    requires c.threshold == 5 && c.window == 60
    ensures var ops := [Offence(100), Force(101, 10), Offence(112)];
      && NewlyBans(c, StateAt(c, BLANK, ops, 2), 112)
      && Window.TimesIn(OffenceTimes(ops, 3), 112 - c.window, 112) < c.threshold
  {
    var ops := [Offence(100), Force(101, 10), Offence(112)];
    assert StateAt(c, BLANK, ops, 0) == BLANK;
    assert StateAt(c, BLANK, ops, 1) == HitState(1, 100, 0);
    assert StateAt(c, BLANK, ops, 2) == HitState(6, 100, 111);
    assert OffenceTimes(ops, 3) == [100, 112] by {
      assert OffenceTimes(ops, 1) == [100];
      assert OffenceTimes(ops, 2) == [100];
    }
    Window.SubsetSize(set i | 0 <= i < |[100, 112]| && 112 - c.window <= [100, 112][i] <= 112, {0, 1});
  }

  // ---- Sweeps ----

  datatype Use = Charge | Sentence(secs: nat) | Forgive | Ask

  function UseStep(c: Config, s: HitState, u: Use, t: nat): HitState {
    match u
    case Charge => Offended(c, s, t)
    case Sentence(secs) => Forced(c, s, t, secs)
    case Forgive => Lifted(s)
    case Ask => s
  }

  /** What the caller learns: whether the offence banned, and for a query whether a ban is on. */
  function UseVerdict(c: Config, s: HitState, u: Use, t: nat): bool {
    match u
    case Charge => NewlyBans(c, s, t)
    case Sentence(_) => true
    case Forgive => true
    case Ask => Banned(s, t)
  }

  /** Same ban from t on; and, unless a single offence bans, the same open window with the same number
      of hits short of T, or none. */
  predicate Alike(c: Config, s: HitState, s': HitState, t: nat) {
    Max(s.banUntil, t) == Max(s'.banUntil, t) && (c.threshold <= 1 || SameWindow(c, s, s', t))
  }

  predicate SameWindow(c: Config, s: HitState, s': HitState, t: nat) {
    && (Open(c, s, t) <==> Open(c, s', t))
    && (Open(c, s, t) ==> s.firstHit == s'.firstHit && Min(s.hits, c.threshold) == Min(s'.hits, c.threshold))
  }

  /** The configurations under which no sweep shows: the window lasts, or there is nothing to count. */
  predicate SweepsHidden(c: Config) {
    c.window >= 1 || c.threshold <= 1
  }

  lemma AlikeLater(c: Config, s: HitState, s': HitState, t: nat, t': nat)
    requires t <= t' && Alike(c, s, s', t)
    ensures Alike(c, s, s', t')
  {
  }

  lemma AlikeDropped(c: Config, s: HitState, s': HitState, t: nat)
    requires SweepsHidden(c) && Alike(c, s, s', t) && Drops(c, s, t)
    ensures Alike(c, BLANK, s', t)
  {
  }

  lemma AlikeOffended(c: Config, s: HitState, s': HitState, t: nat)
    requires t >= 1 && c.threshold <= U32_MAX && Alike(c, s, s', t)
    ensures NewlyBans(c, s, t) <==> NewlyBans(c, s', t)
    ensures Alike(c, Offended(c, s, t), Offended(c, s', t), t)
  {
    var w, w' := Counted(c, s, t), Counted(c, s', t);
    if c.threshold > 1 {
      assert w.firstHit == w'.firstHit && Min(w.hits, c.threshold) == Min(w'.hits, c.threshold);
    }
  }

  lemma AlikeForced(c: Config, s: HitState, s': HitState, secs: nat, t: nat)
    requires c.threshold <= U32_MAX && Alike(c, s, s', t)
    ensures Alike(c, Forced(c, s, t, secs), Forced(c, s', t, secs), t)
  {
    assert Min(SatAdd32(s.hits, c.threshold), c.threshold) == c.threshold;
    assert Min(SatAdd32(s'.hits, c.threshold), c.threshold) == c.threshold;
  }

  lemma AlikeUse(c: Config, s: HitState, s': HitState, u: Use, t: nat)
    requires t >= 1 && c.threshold <= U32_MAX && Alike(c, s, s', t)
    ensures UseVerdict(c, s, u, t) == UseVerdict(c, s', u, t)
    ensures Alike(c, UseStep(c, s, u, t), UseStep(c, s', u, t), t)
  {
    match u
    case Charge => AlikeOffended(c, s, s', t);
    case Sentence(secs) => AlikeForced(c, s, s', secs, t);
    case Forgive =>
    case Ask =>
  }

  function Machine(c: Config): Sweep.Tracker<HitState, Use, bool> {
    Sweep.Tracker(1, BLANK, (s, u, t) => UseStep(c, s, u, t), (s, u, t) => UseVerdict(c, s, u, t),
                  (s, t) => Drops(c, s, t), (s, s', t) => Alike(c, s, s', t))
  }

  lemma MachineIsSound(c: Config)
    requires SweepsHidden(c) && c.threshold <= U32_MAX
    ensures Sweep.Sound(Machine(c))
  {
    var m := Machine(c);
    forall s, s', t: nat, t': nat | t <= t' && m.alike(s, s', t)
      ensures m.alike(s, s', t')
    {
      AlikeLater(c, s, s', t, t');
    }
    forall s, s', t: nat | m.alike(s, s', t) && m.drops(s, t)
      ensures m.alike(m.blank, s', t)
    {
      AlikeDropped(c, s, s', t);
    }
    forall s, s', u, t: nat | t >= 1 && m.alike(s, s', t)
      ensures m.verdict(s, u, t) == m.verdict(s', u, t) && m.alike(m.step(s, u, t), m.step(s', u, t), t)
    {
      AlikeUse(c, s, s', u, t);
    }
  }

  /** Sweeps of the ban table change no verdict: not which offence bans, not who is banned when. */
  lemma SweepsAreInvisible(c: Config, run: seq<Sweep.Event<IpAddr, Use>>)
    requires SweepsHidden(c) && c.threshold <= U32_MAX && Sweep.InOrder(run, 1)
    ensures Sweep.Verdicts(Machine(c), map[], run) == Sweep.Verdicts(Machine(c), map[], Sweep.Uses(run))
  {
    MachineIsSound(c);
    Sweep.SweepsAreInvisible(Machine(c), run);
  }

  // ---- When sweeps do show ----

  lemma {:induction false} OneSecond(run: seq<Sweep.Event<IpAddr, Use>>, t: nat)
    requires forall i | 0 <= i < |run| :: run[i].t == t
    ensures Sweep.InOrder(run, t)
    decreases |run|
  {
    if run != [] { OneSecond(run[1..], t); }
  }

  /** n offences of one address in second 1. */
  function Charges(ip: IpAddr, n: nat): (run: seq<Sweep.Event<IpAddr, Use>>)
    ensures |run| == n && forall i | 0 <= i < n :: run[i] == Sweep.Use(ip, Charge, 1)
  {
    if n == 0 then [] else Charges(ip, n - 1) + [Sweep.Use(ip, Charge, 1)]
  }

  lemma ChargeOnce(c: Config, ip: IpAddr, h: nat)
    requires c.window == 0 && h + 1 < c.threshold <= U32_MAX
    ensures var table := if h == 0 then map[] else map[ip := HitState(h, 1, 0)];
      Sweep.Used(Machine(c), table, ip, Charge, 1) == map[ip := HitState(h + 1, 1, 0)]
  {
  }

  /** Offences short of the threshold leave their number on record, and nothing to sweep out of a run. */
  lemma {:induction false} ChargesCount(c: Config, ip: IpAddr, n: nat)
    requires c.window == 0 && n < c.threshold <= U32_MAX
    ensures Sweep.After(Machine(c), map[], Charges(ip, n)) == if n == 0 then map[] else map[ip := HitState(n, 1, 0)]
    ensures Sweep.Uses(Charges(ip, n)) == Charges(ip, n)
  {
    if n > 0 {
      ChargesCount(c, ip, n - 1);
      ChargeOnce(c, ip, n - 1);
      Sweep.AfterSnoc(Machine(c), map[], Charges(ip, n - 1), Sweep.Use(ip, Charge, 1));
      Sweep.UsesSnoc(Charges(ip, n - 1), Sweep.Use(ip, Charge, 1));
    }
  }

  /** The offence that reaches the threshold bans, unless a sweep of the same second comes before it. */
  lemma LastCharge(c: Config, ip: IpAddr)
    requires c.window == 0 && 2 <= c.threshold <= U32_MAX
    ensures var table := map[ip := HitState(c.threshold - 1, 1, 0)];
      && NewlyBans(c, Sweep.Get(table, ip, BLANK), 1)
      && !NewlyBans(c, Sweep.Get(Sweep.Swept(Machine(c), table, 1), ip, BLANK), 1)
  {
    var table := map[ip := HitState(c.threshold - 1, 1, 0)];
    assert ip !in Sweep.Swept(Machine(c), table, 1);
  }

  /** With a window of zero seconds and a threshold above one, a sweep just before the offence that
      would have banned forgets all the others of that second. */
  lemma ZeroWindowSweepsShow(c: Config, ip: IpAddr) returns (run: seq<Sweep.Event<IpAddr, Use>>)
    requires c.window == 0 && 2 <= c.threshold <= U32_MAX
    ensures Sweep.InOrder(run, 1)
    ensures Sweep.Verdicts(Machine(c), map[], run) != Sweep.Verdicts(Machine(c), map[], Sweep.Uses(run))
  {
    var (m, some) := (Machine(c), Charges(ip, c.threshold - 1));
    var swept := some + [Sweep.Sweep(1)];
    run := swept + [Sweep.Use(ip, Charge, 1)];
    OneSecond(run, 1);
    ChargesCount(c, ip, c.threshold - 1);
    LastCharge(c, ip);
    Sweep.AfterSnoc(m, map[], some, Sweep.Sweep(1));
    Sweep.VerdictsSnoc(m, map[], swept, ip, Charge, 1);
    Sweep.UsesSnoc(some, Sweep.Sweep(1));
    Sweep.UsesSnoc(swept, Sweep.Use(ip, Charge, 1));
    assert some + [] == some;
    Sweep.VerdictsSnoc(m, map[], some, ip, Charge, 1);
    var (seen, unswept) := (Sweep.Verdicts(m, map[], run), Sweep.Verdicts(m, map[], Sweep.Uses(run)));
    assert !seen[|seen| - 1] && unswept[|unswept| - 1];
  }

  ghost predicate Invisible(c: Config) {
    forall run: seq<Sweep.Event<IpAddr, Use>> | Sweep.InOrder(run, 1) ::
      Sweep.Verdicts(Machine(c), map[], run) == Sweep.Verdicts(Machine(c), map[], Sweep.Uses(run))
  }

  /** Sweeps change no verdict of any run exactly when the window is at least one second long or a
      single offence bans. */
  lemma SweepsInvisibleExactly(c: Config)
    requires c.threshold <= U32_MAX
    ensures Invisible(c) <==> SweepsHidden(c)
  {
    if SweepsHidden(c) {
      forall run: seq<Sweep.Event<IpAddr, Use>> | Sweep.InOrder(run, 1)
        ensures Sweep.Verdicts(Machine(c), map[], run) == Sweep.Verdicts(Machine(c), map[], Sweep.Uses(run))
      {
        SweepsAreInvisible(c, run);
      }
    } else {
      var run := ZeroWindowSweepsShow(c, V4(192, 0, 2, 1));
    }
  }
}
