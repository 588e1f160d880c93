/** The ban table as a whole: one hit state per address, the allow and deny lists around it, and
    the file that carries live bans over a restart. */
module Bans {
  import opened Net
  import opened Reputation
  import opened Words

  datatype Saved = Saved(banUntil: nat, hits: nat)

  /** `disk` is what the ban file holds, empty when there is none; `bound` says whether the
      process has been told where it is. */
  datatype Store = Store(state: map<IpAddr, HitState>, disk: map<IpAddr, Saved>, bound: bool)

  /** Everything that touches the table. `ok` says whether a write of the file succeeds; a write
      that fails leaves the old file in place. `Reboot` is a process start followed by binding the
      file, before any request is served. */
  datatype Op =
    | Offend(ip: IpAddr, t: nat, ok: bool)
    | BanFor(ip: IpAddr, secs: nat, t: nat, ok: bool)
    | Pardon(ip: IpAddr, t: nat)
    | Sweep(t: nat)
    | Persist(t: nat, ok: bool)
    | Reboot(t: nat)

  function Entry(s: Store, ip: IpAddr): HitState {
    if ip in s.state then s.state[ip] else BLANK
  }

  /** The live bans, as written to the file. */
  function Dump(state: map<IpAddr, HitState>, now: nat): map<IpAddr, Saved> {
    map ip | ip in state && Banned(state[ip], now) :: Saved(state[ip].banUntil, state[ip].hits)
  }

  function Persisted(s: Store, now: nat, ok: bool): Store {
    if s.bound && ok then s.(disk := Dump(s.state, now)) else s
  }

  function Reloaded(disk: map<IpAddr, Saved>, now: nat): map<IpAddr, HitState> {
    map ip | ip in disk && disk[ip].banUntil > now :: HitState(disk[ip].hits, now, disk[ip].banUntil)
  }

  function Apply(c: Config, s: Store, op: Op): Store {
    match op
    case Offend(ip, t, ok) =>
      if ip in c.allow then s
      else
        var s' := s.(state := s.state[ip := Offended(c, Entry(s, ip), t)]);
        if NewlyBans(c, Entry(s, ip), t) then Persisted(s', t, ok) else s'
    case BanFor(ip, secs, t, ok) =>
      if ip in c.allow then s
      else Persisted(s.(state := s.state[ip := Forced(c, Entry(s, ip), t, secs)]), t, ok)
    case Pardon(ip, t) => if ip in s.state then s.(state := s.state[ip := Lifted(s.state[ip])]) else s
    case Sweep(t) => s.(state := map ip | ip in s.state && !Drops(c, s.state[ip], t) :: s.state[ip])
    case Persist(t, ok) => Persisted(s, t, ok)
    case Reboot(t) => Store(Reloaded(s.disk, t), s.disk, true)
  }

  function After(c: Config, s: Store, ops: seq<Op>): Store {
    if ops == [] then s else Apply(c, After(c, s, ops[..|ops| - 1]), ops[|ops| - 1])
  }

  /** `Reputations::classify`: the allow list wins over everything else. */
  function Classify(c: Config, s: Store, ip: IpAddr, now: nat): Standing {
    if ip in c.allow then Allow
    else if ip in c.deny then Deny
    else if Banned(Entry(s, ip), now) then Deny
    else Unknown
  }

  // ---- A ban, once on, stays on ----

  /** The ban of ip lasts at least until u, in memory and, if `durable`, in the file as well. */
  ghost predicate Held(s: Store, ip: IpAddr, u: nat, durable: bool) {
    && Entry(s, ip).banUntil >= u
    && (durable ==> s.bound && ip in s.disk && s.disk[ip].banUntil >= u)
  }

  /** What may happen while a ban until u is on: anything before u but a pardon of the address, and
      a restart only if the ban is in the file. */
  predicate Spares(op: Op, ip: IpAddr, u: nat, durable: bool) {
    op.t < u && !(op.Pardon? && op.ip == ip) && (op.Reboot? ==> durable)
  }

  lemma PersistedHeld(s: Store, ip: IpAddr, u: nat, durable: bool, now: nat, ok: bool)
    requires Held(s, ip, u, durable) && now < u
    ensures Held(Persisted(s, now, ok), ip, u, durable)
  {
  }

  lemma ApplyHeld(c: Config, s: Store, op: Op, ip: IpAddr, u: nat, durable: bool)
    requires Held(s, ip, u, durable) && Spares(op, ip, u, durable)
    ensures Held(Apply(c, s, op), ip, u, durable)
  {
    match op
    case Offend(a, t, ok) =>
      var s' := s.(state := s.state[a := Offended(c, Entry(s, a), t)]);
      assert Held(s', ip, u, durable);
      PersistedHeld(s', ip, u, durable, t, ok);
    case BanFor(a, secs, t, ok) =>
      var s' := s.(state := s.state[a := Forced(c, Entry(s, a), t, secs)]);
      assert Held(s', ip, u, durable);
      PersistedHeld(s', ip, u, durable, t, ok);
    case Persist(t, ok) => PersistedHeld(s, ip, u, durable, t, ok);
    case _ =>
  }

  /** Whatever happens before u - offences and bans of any address, sweeps, writes of the file that
      succeed or fail, restarts - the address stays denied, unless it is pardoned or on the allow
      list. */
  lemma {:induction false} BanHolds(c: Config, s: Store, ops: seq<Op>, ip: IpAddr, u: nat, durable: bool, now: nat)
    requires Held(s, ip, u, durable) && now < u
    requires forall i | 0 <= i < |ops| :: Spares(ops[i], ip, u, durable)
    ensures Held(After(c, s, ops), ip, u, durable)
    ensures Classify(c, After(c, s, ops), ip, now) == if ip in c.allow then Allow else Deny
  {
    if ops != [] {
      BanHolds(c, s, ops[..|ops| - 1], ip, u, durable, now);
      ApplyHeld(c, After(c, s, ops[..|ops| - 1]), ops[|ops| - 1], ip, u, durable);
    }
  }

  /** An offence that bans, and a forced ban, put the ban on in the first place: in memory always,
      in the file if the file is bound and the write succeeds. */
  lemma BanIsHeld(c: Config, s: Store, op: Op)
    requires op.Offend? || op.BanFor?
    requires op.ip !in c.allow && (op.Offend? ==> 1 <= c.duration && NewlyBans(c, Entry(s, op.ip), op.t))
    requires op.BanFor? ==> op.secs >= 1
    ensures var u := op.t + (if op.Offend? then c.duration else op.secs);
      Held(Apply(c, s, op), op.ip, u, s.bound && op.ok)
  {
  }

  // ---- And ends on time ----

  /** The ban of ip lasts at most until u, in memory and in the file. */
  predicate Ends(s: Store, ip: IpAddr, u: nat) {
    Entry(s, ip).banUntil <= u && (ip in s.disk ==> s.disk[ip].banUntil <= u)
  }

  lemma PersistedEnds(s: Store, ip: IpAddr, u: nat, now: nat, ok: bool)
    requires Ends(s, ip, u)
    ensures Ends(Persisted(s, now, ok), ip, u)
  {
  }

  lemma ApplyEnds(c: Config, s: Store, op: Op, ip: IpAddr, u: nat)
    requires Ends(s, ip, u) && ((op.Offend? || op.BanFor?) ==> op.ip != ip)
    ensures Ends(Apply(c, s, op), ip, u)
  {
    match op
    case Offend(a, t, ok) => PersistedEnds(s.(state := s.state[a := Offended(c, Entry(s, a), t)]), ip, u, t, ok);
    case BanFor(a, secs, t, ok) =>
      PersistedEnds(s.(state := s.state[a := Forced(c, Entry(s, a), t, secs)]), ip, u, t, ok);
    case Persist(t, ok) => PersistedEnds(s, ip, u, t, ok);
    case _ =>
  }

  /** Without a new charge no ban outlasts its time, whatever else happens: from u on the address is as
      unknown as it was, across sweeps, writes, pardons and restarts. */
  lemma {:induction false} BanEnds(c: Config, s: Store, ops: seq<Op>, ip: IpAddr, u: nat, now: nat)
    requires Ends(s, ip, u) && u <= now && ip !in c.deny
    requires forall i | 0 <= i < |ops| :: (ops[i].Offend? || ops[i].BanFor?) ==> ops[i].ip != ip
    ensures Ends(After(c, s, ops), ip, u)
    ensures Classify(c, After(c, s, ops), ip, now) == if ip in c.allow then Allow else Unknown
  {
    if ops != [] {
      var most := ops[..|ops| - 1];
      BanEnds(c, s, most, ip, u, now);
      assert (ops[|ops| - 1].Offend? || ops[|ops| - 1].BanFor?) ==> ops[|ops| - 1].ip != ip;
      ApplyEnds(c, After(c, s, most), ops[|ops| - 1], ip, u);
    }
  }

  /** The two operations that ban put a time to it: neither memory nor file keeps the address longer than
      that, than it had to stay anyway, or than an old file says. */
  lemma BanHasEnd(c: Config, s: Store, op: Op, u: nat)
    requires op.Offend? || op.BanFor?
    requires u >= op.t + (if op.Offend? then c.duration else op.secs) && Ends(s, op.ip, u)
    ensures Ends(Apply(c, s, op), op.ip, u)
  {
  }

  /** Written to the file by the ban itself, it is the old file that does not matter. */
  lemma WrittenBanHasEnd(c: Config, s: Store, op: Op, u: nat)
    requires op.BanFor? || (op.Offend? && NewlyBans(c, Entry(s, op.ip), op.t))
    requires op.ip !in c.allow && s.bound && op.ok
    requires u >= op.t + (if op.Offend? then c.duration else op.secs) && Entry(s, op.ip).banUntil <= u
    ensures Ends(Apply(c, s, op), op.ip, u)
  {
  }

  /** So an offence that bans at t has the address denied for exactly the configured time: until t +
      duration and no longer, whatever happens that neither charges nor pardons it, restarts included if
      the ban got into the file. */
  lemma BanLastsExactly(c: Config, s: Store, ip: IpAddr, t: nat, ok: bool, ops: seq<Op>, now: nat)
    requires 1 <= c.duration && ip !in c.allow && ip !in c.deny && NewlyBans(c, Entry(s, ip), t)
    requires (s.bound && ok) || (ip in s.disk ==> s.disk[ip].banUntil <= t + c.duration)
    requires forall i | 0 <= i < |ops| :: Spares(ops[i], ip, t + c.duration, s.bound && ok)
    requires forall i | 0 <= i < |ops| :: (ops[i].Offend? || ops[i].BanFor?) ==> ops[i].ip != ip
    ensures Classify(c, After(c, Apply(c, s, Offend(ip, t, ok)), ops), ip, now)
         == if now < t + c.duration then Deny else Unknown
  {
    var (op, u) := (Offend(ip, t, ok), t + c.duration);
    var banned := Apply(c, s, op);
    BanIsHeld(c, s, op);
    if s.bound && ok { WrittenBanHasEnd(c, s, op, u); } else { BanHasEnd(c, s, op, u); }
    if now < u {
      BanHolds(c, banned, ops, ip, u, s.bound && ok, now);
    } else {
      BanEnds(c, banned, ops, ip, u, now);
    }
  }

  /** The lists before the bans: an address on the allow list is allowed whatever else, one on the deny list
      alone is denied whatever else, and of the others those with a ban that has time left. */
  lemma ListsDecide(c: Config, s: Store, ip: IpAddr, now: nat)
    ensures ip in c.allow ==> Classify(c, s, ip, now) == Allow
    ensures ip !in c.allow && ip in c.deny ==> Classify(c, s, ip, now) == Deny
    ensures ip !in c.allow && ip !in c.deny ==>
      Classify(c, s, ip, now) == if ip in s.state && now < s.state[ip].banUntil then Deny else Unknown
  {
  }

  // ---- Restart ----

  /** A file written at t and read back at t' denies exactly the addresses that were denied, for
      exactly as long. */
  lemma ReloadFaithful(c: Config, s: Store, t: nat, t': nat, ip: IpAddr, now: nat)
    requires s.bound && t <= t' <= now
    ensures var s' := Apply(c, Apply(c, s, Persist(t, true)), Reboot(t'));
      && Classify(c, s', ip, now) == Classify(c, s, ip, now)
      && (Banned(Entry(s, ip), now) ==> Entry(s', ip) == HitState(Entry(s, ip).hits, t', Entry(s, ip).banUntil))
  {
  }

  /** What a file holds are the bans with time left when it is written, and what is read back are those with
      time left then, each with its hits in a window of its own; nothing else outlives a restart. */
  lemma FileExactly(c: Config, s: Store, t: nat, ip: IpAddr)
    ensures var s' := Apply(c, s, Persist(t, true));
      && s'.state == s.state
      && (s.bound ==>
            && (ip in s'.disk <==> ip in s.state && t < s.state[ip].banUntil)
            && (ip in s'.disk ==> s'.disk[ip] == Saved(s.state[ip].banUntil, s.state[ip].hits)))
    ensures var s' := Apply(c, s, Reboot(t));
      && s'.disk == s.disk && s'.bound
      && (ip in s'.state <==> ip in s.disk && t < s.disk[ip].banUntil)
      && (ip in s'.state ==> s'.state[ip] == HitState(s.disk[ip].hits, t, s.disk[ip].banUntil))
    ensures Apply(c, s, Persist(t, false)) == s && (!s.bound ==> Apply(c, s, Persist(t, true)) == s)
  {
  }

  /** Does the operation rewrite the file? */
  predicate Rewrites(c: Config, s: Store, op: Op) {
    s.bound &&
    match op
    case Offend(ip, t, ok) => ok && ip !in c.allow && NewlyBans(c, Entry(s, ip), t)
    case BanFor(ip, _, _, ok) => ok && ip !in c.allow
    case Persist(_, ok) => ok
    case _ => false
  }

  /** Some operation of the run rewrites the file. */
  ghost predicate Rewritten(c: Config, s: Store, ops: seq<Op>) {
    exists i :: 0 <= i < |ops| && Rewrites(c, After(c, s, ops[..i]), ops[i])
  }

  /** What may lie between a pardon and the restart: anything that does not charge the address anew. */
  predicate LeavesAlone(op: Op, ip: IpAddr) {
    !op.Reboot? && ((op.Offend? || op.BanFor?) ==> op.ip != ip)
  }

  lemma RewrittenSnoc(c: Config, s: Store, ops: seq<Op>)
    requires ops != []
    ensures var (most, last) := (ops[..|ops| - 1], ops[|ops| - 1]);
      Rewritten(c, s, ops) <==> Rewritten(c, s, most) || Rewrites(c, After(c, s, most), last)
  {
    var most := ops[..|ops| - 1];
    if Rewritten(c, s, most) {
      var i :| 0 <= i < |most| && Rewrites(c, After(c, s, most[..i]), most[i]);
      assert most[..i] == ops[..i] && most[i] == ops[i];
    }
    if Rewritten(c, s, ops) {
      var i :| 0 <= i < |ops| && Rewrites(c, After(c, s, ops[..i]), ops[i]);
      if i < |most| { assert most[..i] == ops[..i] && most[i] == ops[i]; }
    }
  }

  lemma StepWhilePardoned(c: Config, s: Store, op: Op, ip: IpAddr)
    requires s.bound && Entry(s, ip).banUntil == 0 && LeavesAlone(op, ip)
    ensures var s' := Apply(c, s, op);
      && s'.bound && Entry(s', ip).banUntil == 0
      && (if Rewrites(c, s, op) then ip !in s'.disk else s'.disk == s.disk)
  {
  }

  /** A pardoned address has no ban to write: the file lists it as before until it is rewritten, and
      not at all from then on. */
  lemma {:induction false} WhilePardoned(c: Config, s: Store, ops: seq<Op>, ip: IpAddr)
    requires s.bound && Entry(s, ip).banUntil == 0 && forall i | 0 <= i < |ops| :: LeavesAlone(ops[i], ip)
    ensures var s' := After(c, s, ops);
      && s'.bound && Entry(s', ip).banUntil == 0
      && (if Rewritten(c, s, ops) then ip !in s'.disk else (ip in s'.disk <==> ip in s.disk)
                                                           && (ip in s.disk ==> s'.disk[ip] == s.disk[ip]))
  {
    if ops != [] {
      var (most, last) := (ops[..|ops| - 1], ops[|ops| - 1]);
      WhilePardoned(c, s, most, ip);
      RewrittenSnoc(c, s, ops);
      StepWhilePardoned(c, After(c, s, most), last, ip);
    }
  }

  /** A pardon is not written to the file. Whatever else happens before the next restart, it outlives
      the restart exactly when the file did not list the address with time left or has been rewritten
      since - which the housekeeping does every minute. */
  lemma PardonOutlivesRestart(c: Config, s: Store, ip: IpAddr, t: nat, ops: seq<Op>, t': nat)
    requires s.bound && forall i | 0 <= i < |ops| :: LeavesAlone(ops[i], ip)
    ensures var pardoned := Apply(c, s, Pardon(ip, t));
            var s' := Apply(c, After(c, pardoned, ops), Reboot(t'));
      !Banned(Entry(s', ip), t')
      <==> Rewritten(c, pardoned, ops) || ip !in s.disk || s.disk[ip].banUntil <= t'
  {
    WhilePardoned(c, Apply(c, s, Pardon(ip, t)), ops, ip);
  }

  /** A ban, a pardon a second later, a restart a second after that: the ban is back. */
  lemma PardonForgotten(c: Config, ip: IpAddr)
    requires c.duration >= 10 && ip !in c.allow && ip !in c.deny
    ensures var ops := [BanFor(ip, c.duration, 100, true), Pardon(ip, 101), Reboot(102)];
            var s := Store(map[], map[], true);
      && Classify(c, After(c, s, ops[..2]), ip, 101) == Unknown
      && Classify(c, After(c, s, ops), ip, 102) == Deny
  {
    var ops := [BanFor(ip, c.duration, 100, true), Pardon(ip, 101), Reboot(102)];
    var s := Store(map[], map[], true);
    assert ops[..2][..1] == ops[..1] && ops[..1][..0] == [];
    assert After(c, s, ops[..1]) == Apply(c, s, ops[0]);
    assert After(c, s, ops[..2]) == Apply(c, Apply(c, s, ops[0]), ops[1]);
  }

  /** Reading one more entry leaves less to read and comes to the same in the end. */
  lemma ReloadNext(state: map<IpAddr, HitState>, rest: map<IpAddr, Saved>, ip: IpAddr, now: nat)
    requires ip in rest
    ensures var b := rest[ip];
            var next := if b.banUntil > now then state[ip := HitState(b.hits, now, b.banUntil)] else state;
      next + Reloaded(rest - {ip}, now) == state + Reloaded(rest, now)
  {
    var all, less := Reloaded(rest, now), Reloaded(rest - {ip}, now);
    if rest[ip].banUntil > now {
      assert all == less[ip := HitState(rest[ip].hits, now, rest[ip].banUntil)];
    } else {
      assert all == less;
    }
  }

  // ---- The running table ----

  class Reputations {
    const cfg: Config
    var state: map<IpAddr, HitState>
    var disk: map<IpAddr, Saved>
    var bound: bool

    ghost function Snapshot(): Store
      reads this
    {
      Store(state, disk, bound)
    }

    constructor (cfg: Config, disk: map<IpAddr, Saved>)
      ensures this.cfg == cfg && Snapshot() == Store(map[], disk, false)
    {
      this.cfg := cfg;
      state, this.disk, bound := map[], disk, false;
    }

    method Enter(ip: IpAddr, b: Saved, now: nat)
      modifies this`state
      ensures state
           == if b.banUntil > now then old(state)[ip := HitState(b.hits, now, b.banUntil)] else old(state)
    {
      if b.banUntil > now { state := state[ip := HitState(b.hits, now, b.banUntil)]; }
    }

    /** Read the ban file in, entry by entry; a second binding would keep what is in memory. */
    method BindPersistFile(now: nat)
      modifies this
      ensures Snapshot() == Store(old(state) + Reloaded(old(disk), now), old(disk), true)
    {
      var rest := disk;
      while rest != map[]
        invariant disk == old(disk)
        invariant state + Reloaded(rest, now) == old(state) + Reloaded(disk, now)
        decreases |rest|
      {
        var ip :| ip in rest;
        var b := rest[ip];
        ReloadNext(state, rest, ip, now);
        Enter(ip, b, now);
        rest := rest - {ip};
      }
      assert Reloaded(rest, now) == map[];
      bound := true;
    }

    method Persist(now: nat, ok: bool)
      modifies this`disk
      ensures Snapshot() == Apply(cfg, old(Snapshot()), Op.Persist(now, ok))
    {
      if !bound { return; }
      var dump := map ip | ip in state && state[ip].banUntil > now :: Saved(state[ip].banUntil, state[ip].hits);
      if ok { disk := dump; }
    }

    method RecordOffence(ip: IpAddr, now: nat, ok: bool) returns (newBan: bool)
      modifies this
      ensures Snapshot() == Apply(cfg, old(Snapshot()), Offend(ip, now, ok))
      ensures newBan <==> ip !in cfg.allow && NewlyBans(cfg, old(Entry(Snapshot(), ip)), now)
    {
      if ip in cfg.allow { return false; }
      var s := if ip in state then state[ip] else HitState(0, 0, 0);
      if s.firstHit == 0 || SatSub(now, s.firstHit) > cfg.window {
        s := s.(firstHit := now, hits := 0);
      }
      s := s.(hits := SatAdd32(s.hits, 1));
      newBan := s.hits >= cfg.threshold && s.banUntil <= now;
      if newBan { s := s.(banUntil := now + cfg.duration); }
      state := state[ip := s];
      if newBan { Persist(now, ok); }
    }

    method ForceBan(ip: IpAddr, secs: nat, now: nat, ok: bool) returns (banned: bool)
      modifies this
      ensures Snapshot() == Apply(cfg, old(Snapshot()), BanFor(ip, secs, now, ok))
      ensures banned <==> ip !in cfg.allow
    {
      if ip in cfg.allow { return false; }
      var s := if ip in state then state[ip] else HitState(0, 0, 0);
      var until := now + secs;
      if s.banUntil < until { s := s.(banUntil := until); }
      s := s.(hits := SatAdd32(s.hits, cfg.threshold));
      state := state[ip := s];
      Persist(now, ok);
      banned := true;
    }

    method Unban(ip: IpAddr, now: nat)
      modifies this
      ensures Snapshot() == Apply(cfg, old(Snapshot()), Pardon(ip, now))
    {
      if ip in state { state := state[ip := state[ip].(banUntil := 0, hits := 0)]; }
    }

    method Gc(now: nat)
      modifies this
      ensures Snapshot() == Apply(cfg, old(Snapshot()), Sweep(now))
    {
      state := map ip | ip in state &&
          (state[ip].banUntil > now || SatSub(now, state[ip].firstHit) < cfg.window * 2) :: state[ip];
    }

    method IsBanned(ip: IpAddr, now: nat) returns (yes: bool)
      ensures yes <==> Banned(Entry(Snapshot(), ip), now)
    {
      yes := ip in state && state[ip].banUntil > now;
    }

    method Standing(ip: IpAddr, now: nat) returns (r: Reputation.Standing)
      ensures r == Classify(cfg, Snapshot(), ip, now)
    {
      if ip in cfg.allow { return Allow; }
      if ip in cfg.deny { return Deny; }
      var banned := IsBanned(ip, now);
      r := if banned then Deny else Unknown;
    }
  }
}
