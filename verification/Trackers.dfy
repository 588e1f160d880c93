/** The four trackers a scored request is shown to, each if it is switched on. */
module Trackers {
  import Behavior
  import Signature
  import Subnet
  import opened Decision
  import opened Net
  import opened Window
  import opened Words

  datatype Asked = Asked(behavior: bool, subnet: bool, replay: bool, distUa: bool)

  /** What the trackers are shown of a request; `signature` is the hash of method, path and
      User-Agent together. */
  datatype Probe = Probe(ip: IpAddr, profile: Behavior.Request, signature: nat)

  datatype Tables = Tables(behavior: Behavior.Table, subnet: Subnet.State, replay: Signature.ReplayTable,
                           distUa: Signature.UaTable)

  const UNUSED := Tables(Behavior.Table(map[], 0), Subnet.State(map[], map[], 0), Signature.ReplayTable(map[], 0),
                         Signature.UaTable(map[], 0))

  datatype Answers = Answers(behavior: seq<Reason>, subnet: seq<Reason>, replay: seq<Reason>, distUa: seq<Reason>)

  function Listed(r: Option<Reason>): seq<Reason> {
    if r.Some? then [r.value] else []
  }

  function AskBehavior(on: bool, t: Behavior.Table, p: Probe, now: nat): (Behavior.Table, seq<Reason>) {
    if on then Behavior.Observed(t, p.ip, p.profile, now) else (t, [])
  }

  ghost function AskSubnet(on: bool, t: Subnet.State, p: Probe, caps: Subnet.Caps, now: nat):
      (Subnet.State, seq<Reason>)
  {
    if on then Subnet.Observed(t, p.ip, caps, now) else (t, [])
  }

  function AskReplay(on: bool, t: Signature.ReplayTable, p: Probe, now: nat): (Signature.ReplayTable, seq<Reason>) {
    if on then var (t', r) := Signature.ReplayObserved(t, p.ip, p.signature, now); (t', Listed(r)) else (t, [])
  }

  function AskDistUa(on: bool, t: Signature.UaTable, p: Probe, now: nat): (Signature.UaTable, seq<Reason>) {
    if on then var (t', r) := Signature.UaObserved(t, p.ip, p.profile.ua, now); (t', Listed(r)) else (t, [])
  }

  /** The trackers of floods, asked after the one of behaviour. */
  ghost function RestObserved(on: Asked, t: Tables, p: Probe, caps: Subnet.Caps, now: nat): (Tables, Answers) {
    var (subnet, b) := AskSubnet(on.subnet, t.subnet, p, caps, now);
    var (replay, c) := AskReplay(on.replay, t.replay, p, now);
    var (distUa, d) := AskDistUa(on.distUa, t.distUa, p, now);
    (Tables(t.behavior, subnet, replay, distUa), Answers([], b, c, d))
  }

  /** All of them, in the order they are asked. */
  ghost function Observed(on: Asked, t: Tables, p: Probe, caps: Subnet.Caps, now: nat): (Tables, Answers) {
    var (behavior, a) := AskBehavior(on.behavior, t.behavior, p, now);
    var (t', rest) := RestObserved(on, t.(behavior := behavior), p, caps, now);
    (t', rest.(behavior := a))
  }

  class Panel {
    const behavior: Behavior.BehaviorTracker
    const subnets: Subnet.SubnetTracker
    const replay: Signature.RequestReplay
    const distUa: Signature.DistributedUa

    ghost function Footprint(): set<object>
      reads subnets.counters
    {
      {behavior, subnets, subnets.inFlight, replay, distUa} + subnets.counters.Repr
    }

    ghost predicate Valid()
      reads behavior, subnets, subnets.counters, subnets.counters.Repr
    {
      && behavior.Valid() && subnets.Valid()
      && behavior !in subnets.counters.Repr && replay !in subnets.counters.Repr && distUa !in subnets.counters.Repr
    }

    ghost function Snapshot(): Tables
      reads behavior, subnets, subnets.counters, subnets.inFlight, replay, distUa
    {
      Tables(behavior.Snapshot(), subnets.Snapshot(), replay.Snapshot(), distUa.Snapshot())
    }

    /** The subnet clock has not passed `now`, and the six slots up to it hold fewer hits of ip's subnet than a
        32-bit counter can. */
    ghost predicate Ready(ip: IpAddr, now: nat)
      reads subnets.counters
    {
      subnets.counters.clock <= now && Recent(Log(subnets.counters.hist, SubnetKey(ip)), now) < U32_MAX
    }

    constructor ()
      ensures Valid() && fresh(Footprint()) && subnets.counters.clock == 0
      ensures Snapshot() == UNUSED
    {
      behavior := new Behavior.BehaviorTracker();
      subnets := new Subnet.SubnetTracker();
      replay := new Signature.RequestReplay();
      distUa := new Signature.DistributedUa();
    }

    method ShowBehavior(on: bool, p: Probe, now: nat) returns (out: seq<Reason>)
      requires behavior.Valid()
      modifies behavior
      ensures behavior.Valid()
      ensures (behavior.Snapshot(), out) == AskBehavior(on, old(behavior.Snapshot()), p, now)
    {
      out := [];
      if on { out := behavior.Observe(p.ip, p.profile, now); }
    }

    method ShowSubnet(on: bool, p: Probe, caps: Subnet.Caps, now: nat) returns (out: seq<Reason>)
      requires subnets.Valid() && Ready(p.ip, now)
      modifies subnets, subnets.inFlight, subnets.counters.Repr
      ensures subnets.Valid() && subnets.counters.clock <= now
      ensures fresh(subnets.counters.Repr - old(subnets.counters.Repr))
      ensures (subnets.Snapshot(), out) == AskSubnet(on, old(subnets.Snapshot()), p, caps, now)
    {
      out := [];
      if on { out := subnets.Observe(p.ip, caps, now); }
    }

    method ShowReplay(on: bool, p: Probe, now: nat) returns (out: seq<Reason>)
      modifies replay
      ensures (replay.Snapshot(), out) == AskReplay(on, old(replay.Snapshot()), p, now)
    {
      out := [];
      if on {
        var r := replay.Observe(p.ip, p.signature, now);
        out := Listed(r);
      }
    }

    method ShowDistUa(on: bool, p: Probe, now: nat) returns (out: seq<Reason>)
      modifies distUa
      ensures (distUa.Snapshot(), out) == AskDistUa(on, old(distUa.Snapshot()), p, now)
    {
      out := [];
      if on {
        var r := distUa.Observe(p.ip, p.profile.ua, now);
        out := Listed(r);
      }
    }

    method ShowFloods(on: Asked, p: Probe, caps: Subnet.Caps, now: nat) returns (a: Answers)
      requires Valid() && Ready(p.ip, now)
      modifies subnets, subnets.inFlight, subnets.counters.Repr, replay, distUa
      ensures Valid() && fresh(Footprint() - old(Footprint())) && subnets.counters.clock <= now
      ensures (Snapshot(), a) == RestObserved(on, old(Snapshot()), p, caps, now)
    {
      var s := ShowSubnet(on.subnet, p, caps, now);
      var r := ShowReplay(on.replay, p, now);
      var u := ShowDistUa(on.distUa, p, now);
      a := Answers([], s, r, u);
    }
  }
}
