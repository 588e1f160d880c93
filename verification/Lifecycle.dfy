/** The life of proxied requests: a capacity check at the door, two increments, the request
    itself, two decrements; each a step of its own among those of all other requests. */
module Lifecycle {
  import opened Connections
  import opened Net
  import opened Words

  /** `Arriving` has yet to pass the door, `Door` has passed it and counts nowhere, `Half` counts
      under its address, `Live` under its subnet too, `Leaving` under its subnet only. */
  datatype Phase = Arriving | Door | Half | Live | Leaving | Gone

  datatype Request = Request(ip: IpAddr, phase: Phase)

  datatype State = State(conns: map<IpAddr, int>, subnets: map<nat, int>, reqs: seq<Request>)

  datatype Action =
    | Arrive(ip: IpAddr) | CheckDoor(i: nat) | IncConn(i: nat) | IncSubnet(i: nat)
    | DecConn(i: nat) | DecSubnet(i: nat) | SweepConns | SweepSubnets

  const START := State(map[], map[], [])

  /** `Engine::at_capacity`; a cap of zero switches the check off. */
  ghost predicate AtCapacity(conns: map<IpAddr, int>, cap: nat) {
    cap != 0 && Sum(conns) >= cap
  }

  predicate In(s: State, i: nat, p: Phase) {
    i < |s.reqs| && s.reqs[i].phase == p
  }

  /** At most `workers` requests are past the door check and not yet counted. */
  ghost predicate Enabled(s: State, a: Action, cap: nat, workers: nat) {
    match a
    case Arrive(_) => true
    case CheckDoor(i) => In(s, i, Arriving) && (AtCapacity(s.conns, cap) || |Gather(s.reqs, AtDoor)| < workers)
    case IncConn(i) => In(s, i, Door)
    case IncSubnet(i) => In(s, i, Half)
    case DecConn(i) => In(s, i, Live)
    case DecSubnet(i) => In(s, i, Leaving)
    case SweepConns => true
    case SweepSubnets => true
  }

  function Moved(s: State, i: nat, p: Phase): State
    requires i < |s.reqs|
  {
    s.(reqs := s.reqs[i := s.reqs[i].(phase := p)])
  }

  ghost function Apply(s: State, a: Action, cap: nat, workers: nat): State
    requires Enabled(s, a, cap, workers)
  {
    match a
    case Arrive(ip) => s.(reqs := s.reqs + [Request(ip, Arriving)])
    case CheckDoor(i) => Moved(s, i, if AtCapacity(s.conns, cap) then Gone else Door)
    case IncConn(i) => Moved(s, i, Half).(conns := Incremented(s.conns, s.reqs[i].ip))
    case IncSubnet(i) => Moved(s, i, Live).(subnets := Incremented(s.subnets, SubnetKey(s.reqs[i].ip)))
    case DecConn(i) => Moved(s, i, Leaving).(conns := Decremented(s.conns, s.reqs[i].ip))
    case DecSubnet(i) => Moved(s, i, Gone).(subnets := Decremented(s.subnets, SubnetKey(s.reqs[i].ip)))
    case SweepConns => s.(conns := Swept(s.conns))
    case SweepSubnets => s.(subnets := Swept(s.subnets))
  }

  // ---- Who holds what ----

  function AtDoor(r: Request): multiset<bool> {
    if r.phase.Door? then multiset{true} else multiset{}
  }

  function HoldsConn(r: Request): multiset<IpAddr> {
    Only(r.ip, Connected(r.phase))
  }

  function HoldsSubnet(r: Request): multiset<nat> {
    Only(SubnetKey(r.ip), InSubnet(r.phase))
  }

  function Gather<K>(reqs: seq<Request>, f: Request -> multiset<K>): multiset<K> {
    if reqs == [] then multiset{} else Gather(reqs[..|reqs| - 1], f) + f(reqs[|reqs| - 1])
  }

  lemma {:induction false} GatherUpdate<K>(reqs: seq<Request>, f: Request -> multiset<K>, i: nat, r: Request)
    requires i < |reqs|
    ensures f(reqs[i]) <= Gather(reqs, f)
    ensures Gather(reqs[i := r], f) == Gather(reqs, f) - f(reqs[i]) + f(r)
  {
    var n := |reqs| - 1;
    if i == n {
      assert reqs[i := r][..n] == reqs[..n];
    } else {
      GatherUpdate(reqs[..n], f, i, r);
      assert reqs[i := r][..n] == reqs[..n][i := r];
    }
  }

  /** Who counts where: addresses, subnets, and how many requests are just past the door. */
  datatype Holders = Holders(conn: multiset<IpAddr>, subnet: multiset<nat>, door: nat)

  function HoldersOf(s: State): Holders {
    Holders(Gather(s.reqs, HoldsConn), Gather(s.reqs, HoldsSubnet), |Gather(s.reqs, AtDoor)|)
  }

  /** Each count is that of the holders behind it, and the door never lets the total climb past
      cap + workers - 1. */
  ghost predicate Books(conns: map<IpAddr, int>, subnets: map<nat, int>, h: Holders, cap: nat, workers: nat) {
    && Counts(conns, h.conn) && Counts(subnets, h.subnet)
    && h.door <= workers
    && (cap > 0 ==> |h.conn| + h.door <= cap + workers - 1)
  }

  ghost predicate Inv(s: State, cap: nat, workers: nat) {
    Books(s.conns, s.subnets, HoldersOf(s), cap, workers)
  }

  predicate Connected(p: Phase) { p.Half? || p.Live? }

  predicate InSubnet(p: Phase) { p.Live? || p.Leaving? }

  function Only<K>(x: K, yes: bool): multiset<K> {
    if yes then multiset{x} else multiset{}
  }

  lemma Replaced<K>(h: multiset<K>, x: K, was: bool, now: bool)
    requires Only(x, was) <= h
    ensures was ==> x in h
    ensures h - Only(x, was) + Only(x, now)
         == if was == now then h else if was then h - multiset{x} else h + multiset{x}
  {
    if was {
      assert Only(x, was)[x] == 1;
      assert h - multiset{x} + multiset{x} == h;
    }
  }

  lemma ConnMoved(s: State, i: nat, p: Phase)
    requires i < |s.reqs|
    ensures var h := Gather(s.reqs, HoldsConn);
            var was := Connected(s.reqs[i].phase);
      && (was ==> s.reqs[i].ip in h)
      && Gather(Moved(s, i, p).reqs, HoldsConn)
         == if was == Connected(p) then h
            else if was then h - multiset{s.reqs[i].ip} else h + multiset{s.reqs[i].ip}
  {
    GatherUpdate(s.reqs, HoldsConn, i, s.reqs[i].(phase := p));
    Replaced(Gather(s.reqs, HoldsConn), s.reqs[i].ip, Connected(s.reqs[i].phase), Connected(p));
  }

  lemma SubnetMoved(s: State, i: nat, p: Phase)
    requires i < |s.reqs|
    ensures var h := Gather(s.reqs, HoldsSubnet);
            var (was, key) := (InSubnet(s.reqs[i].phase), SubnetKey(s.reqs[i].ip));
      && (was ==> key in h)
      && Gather(Moved(s, i, p).reqs, HoldsSubnet)
         == if was == InSubnet(p) then h else if was then h - multiset{key} else h + multiset{key}
  {
    GatherUpdate(s.reqs, HoldsSubnet, i, s.reqs[i].(phase := p));
    Replaced(Gather(s.reqs, HoldsSubnet), SubnetKey(s.reqs[i].ip), InSubnet(s.reqs[i].phase), InSubnet(p));
  }

  lemma DoorMoved(s: State, i: nat, p: Phase)
    requires i < |s.reqs|
    ensures |Gather(Moved(s, i, p).reqs, AtDoor)|
         == |Gather(s.reqs, AtDoor)| - (if s.reqs[i].phase.Door? then 1 else 0) + (if p.Door? then 1 else 0)
  {
    GatherUpdate(s.reqs, AtDoor, i, s.reqs[i].(phase := p));
  }

  lemma GatherSnoc<K>(reqs: seq<Request>, f: Request -> multiset<K>, r: Request)
    ensures Gather(reqs + [r], f) == Gather(reqs, f) + f(r)
  {
    assert (reqs + [r])[..|reqs|] == reqs;
  }

  lemma ArriveStep(s: State, ip: IpAddr)
    ensures var t := s.reqs + [Request(ip, Arriving)];
      && Gather(t, HoldsConn) == Gather(s.reqs, HoldsConn)
      && Gather(t, HoldsSubnet) == Gather(s.reqs, HoldsSubnet)
      && Gather(t, AtDoor) == Gather(s.reqs, AtDoor)
  {
    var r := Request(ip, Arriving);
    GatherSnoc(s.reqs, HoldsConn, r);
    GatherSnoc(s.reqs, HoldsSubnet, r);
    GatherSnoc(s.reqs, AtDoor, r);
  }

  /** The holders after request i has moved to phase p. */
  function HoldersMoved(h: Holders, r: Request, p: Phase): Holders {
    var (was, key, inn) := (Connected(r.phase), SubnetKey(r.ip), InSubnet(r.phase));
    Holders(if was == Connected(p) then h.conn else if was then h.conn - multiset{r.ip} else h.conn + multiset{r.ip},
            if inn == InSubnet(p) then h.subnet else if inn then h.subnet - multiset{key} else h.subnet + multiset{key},
            h.door - (if r.phase.Door? && h.door > 0 then 1 else 0) + (if p.Door? then 1 else 0))
  }

  lemma Moving(s: State, i: nat, p: Phase)
    requires i < |s.reqs|
    ensures HoldersOf(Moved(s, i, p)) == HoldersMoved(HoldersOf(s), s.reqs[i], p)
    ensures Connected(s.reqs[i].phase) ==> s.reqs[i].ip in HoldersOf(s).conn
    ensures InSubnet(s.reqs[i].phase) ==> SubnetKey(s.reqs[i].ip) in HoldersOf(s).subnet
    ensures s.reqs[i].phase.Door? ==> HoldersOf(s).door > 0
  {
    ConnMoved(s, i, p);
    SubnetMoved(s, i, p);
    DoorMoved(s, i, p);
    DoorMoved(s, i, Gone);
  }

  /** The two counters after request r has moved to phase p. */
  function ConnsMoved(conns: map<IpAddr, int>, r: Request, p: Phase): map<IpAddr, int> {
    if Connected(r.phase) == Connected(p) then conns
    else if Connected(p) then Incremented(conns, r.ip) else Decremented(conns, r.ip)
  }

  function SubnetsMoved(subnets: map<nat, int>, r: Request, p: Phase): map<nat, int> {
    if InSubnet(r.phase) == InSubnet(p) then subnets
    else if InSubnet(p) then Incremented(subnets, SubnetKey(r.ip)) else Decremented(subnets, SubnetKey(r.ip))
  }

  /** Moving one request keeps the books, provided a request passes the door only below the cap. */
  lemma BooksMoved(conns: map<IpAddr, int>, subnets: map<nat, int>, h: Holders, r: Request, p: Phase,
                   cap: nat, workers: nat)
    requires Books(conns, subnets, h, cap, workers)
    requires Connected(r.phase) ==> r.ip in h.conn
    requires InSubnet(r.phase) ==> SubnetKey(r.ip) in h.subnet
    requires r.phase.Door? ==> h.door > 0
    requires p.Door? ==> h.door < workers && (cap > 0 ==> |h.conn| < cap)
    requires !Connected(r.phase) && Connected(p) ==> r.phase.Door?
    ensures Books(ConnsMoved(conns, r, p), SubnetsMoved(subnets, r, p), HoldersMoved(h, r, p), cap, workers)
  {
    var key := SubnetKey(r.ip);
    if Connected(r.phase) { DecCounts(conns, h.conn, r.ip); } else { IncCounts(conns, h.conn, r.ip); }
    if InSubnet(r.phase) { DecCounts(subnets, h.subnet, key); } else { IncCounts(subnets, h.subnet, key); }
  }

  /** The phase a request-moving action takes its request to. */
  ghost function Target(s: State, a: Action, cap: nat): Phase {
    if a.CheckDoor? then (if AtCapacity(s.conns, cap) then Gone else Door)
    else if a.IncConn? then Half else if a.IncSubnet? then Live else if a.DecConn? then Leaving else Gone
  }

  predicate Moves(a: Action) {
    a.CheckDoor? || a.IncConn? || a.IncSubnet? || a.DecConn? || a.DecSubnet?
  }

  lemma ApplyMoves(s: State, a: Action, cap: nat, workers: nat)
    requires Enabled(s, a, cap, workers) && Moves(a)
    ensures var (r, p) := (s.reqs[a.i], Target(s, a, cap));
      && Apply(s, a, cap, workers)
         == State(ConnsMoved(s.conns, r, p), SubnetsMoved(s.subnets, r, p), Moved(s, a.i, p).reqs)
      && (p.Door? ==> HoldersOf(s).door < workers && !AtCapacity(s.conns, cap))
      && (!Connected(r.phase) && Connected(p) ==> r.phase.Door?)
  {
  }

  lemma MoveStep(s: State, a: Action, cap: nat, workers: nat)
    requires Inv(s, cap, workers) && Enabled(s, a, cap, workers) && Moves(a)
    ensures Inv(Apply(s, a, cap, workers), cap, workers)
  {
    ApplyMoves(s, a, cap, workers);
    Moving(s, a.i, Target(s, a, cap));
    SumCounts(s.conns, HoldersOf(s).conn);
    BooksMoved(s.conns, s.subnets, HoldersOf(s), s.reqs[a.i], Target(s, a, cap), cap, workers);
  }

  lemma InvStep(s: State, a: Action, cap: nat, workers: nat)
    requires Inv(s, cap, workers) && Enabled(s, a, cap, workers)
    ensures Inv(Apply(s, a, cap, workers), cap, workers)
  {
    if Moves(a) {
      MoveStep(s, a, cap, workers);
    } else if a.Arrive? {
      ArriveStep(s, a.ip);
    } else if a.SweepConns? {
      SweepCounts(s.conns, HoldersOf(s).conn);
    } else {
      SweepCounts(s.subnets, HoldersOf(s).subnet);
    }
  }

  // ---- Whole runs ----

  ghost predicate Possible(s: State, run: seq<Action>, cap: nat, workers: nat)
    decreases |run|
  {
    run == [] || (Enabled(s, run[0], cap, workers) && Possible(Apply(s, run[0], cap, workers), run[1..], cap, workers))
  }

  ghost function After(s: State, run: seq<Action>, cap: nat, workers: nat): State
    requires Possible(s, run, cap, workers)
    decreases |run|
  {
    if run == [] then s else After(Apply(s, run[0], cap, workers), run[1..], cap, workers)
  }

  lemma {:induction false} InvRun(s: State, run: seq<Action>, cap: nat, workers: nat)
    requires Inv(s, cap, workers) && Possible(s, run, cap, workers)
    ensures Inv(After(s, run, cap, workers), cap, workers)
    decreases |run|
  {
    if run != [] {
      InvStep(s, run[0], cap, workers);
      InvRun(Apply(s, run[0], cap, workers), run[1..], cap, workers);
    }
  }

  /** Some interleaving of requests and sweeps leads here from an empty proxy. */
  ghost predicate Reachable(s: State, cap: nat, workers: nat) {
    exists run :: Possible(START, run, cap, workers) && After(START, run, cap, workers) == s
  }

  lemma ReachableInv(s: State, cap: nat, workers: nat)
    requires Reachable(s, cap, workers)
    ensures Inv(s, cap, workers)
  {
    var run :| Possible(START, run, cap, workers) && After(START, run, cap, workers) == s;
    InvRun(START, run, cap, workers);
  }

  /** How many requests count under an address, and under a subnet. */
  function LiveAt(reqs: seq<Request>, ip: IpAddr): nat { Gather(reqs, HoldsConn)[ip] }

  function LiveIn(reqs: seq<Request>, key: nat): nat { Gather(reqs, HoldsSubnet)[key] }

  /** In every interleaving, sweeps included, every count is the number of live requests behind
      it, the total is their number, and whoever is about to decrement finds a positive count: the
      repair to zero is never reached. */
  lemma CountsAreExact(s: State, cap: nat, workers: nat)
    requires Reachable(s, cap, workers)
    ensures forall ip :: Count(s.conns, ip) == LiveAt(s.reqs, ip)
    ensures forall key :: Count(s.subnets, key) == LiveIn(s.reqs, key)
    ensures Sum(s.conns) == |Gather(s.reqs, HoldsConn)|
    ensures forall i: nat | In(s, i, Live) :: Count(s.conns, s.reqs[i].ip) > 0
    ensures forall i: nat | In(s, i, Leaving) :: Count(s.subnets, SubnetKey(s.reqs[i].ip)) > 0
  {
    ReachableInv(s, cap, workers);
    SumCounts(s.conns, Gather(s.reqs, HoldsConn));
    forall i: nat | i < |s.reqs|
      ensures In(s, i, Live) ==> Count(s.conns, s.reqs[i].ip) > 0
      ensures In(s, i, Leaving) ==> Count(s.subnets, SubnetKey(s.reqs[i].ip)) > 0
    {
      ConnMoved(s, i, Gone);
      SubnetMoved(s, i, Gone);
    }
  }

  /** Check-then-act at the door overshoots the cap by at most workers - 1. */
  lemma TotalBounded(s: State, cap: nat, workers: nat)
    requires cap > 0 && Reachable(s, cap, workers)
    ensures Sum(s.conns) <= cap + workers - 1
  {
    ReachableInv(s, cap, workers);
    SumCounts(s.conns, HoldersOf(s).conn);
  }

  /** The door is shut exactly when there is a cap and as many requests as that are between their two counts
      under their address; a cap of zero never shuts it. */
  lemma DoorCountsLive(s: State, cap: nat, workers: nat)
    requires Reachable(s, cap, workers)
    ensures AtCapacity(s.conns, cap) <==> 0 < cap <= |Gather(s.reqs, HoldsConn)|
  {
    ReachableInv(s, cap, workers);
    SumCounts(s.conns, Gather(s.reqs, HoldsConn));
  }

  // ---- The overshoot is real ----

  lemma {:induction false} Extend(s: State, run: seq<Action>, a: Action, cap: nat, workers: nat)
    requires Possible(s, run, cap, workers) && Enabled(After(s, run, cap, workers), a, cap, workers)
    ensures Possible(s, run + [a], cap, workers)
    ensures After(s, run + [a], cap, workers) == Apply(After(s, run, cap, workers), a, cap, workers)
    decreases |run|
  {
    if run == [] {
      assert run + [a] == [a];
      assert [a][1..] == [];
    } else {
      assert (run + [a])[1..] == run[1..] + [a];
      Extend(Apply(s, run[0], cap, workers), run[1..], a, cap, workers);
    }
  }

  lemma ReachStep(s: State, a: Action, cap: nat, workers: nat)
    requires Reachable(s, cap, workers) && Enabled(s, a, cap, workers)
    ensures Reachable(Apply(s, a, cap, workers), cap, workers)
  {
    var run :| Possible(START, run, cap, workers) && After(START, run, cap, workers) == s;
    Extend(START, run, a, cap, workers);
  }

  /** Of the requests from j on, the first d are past the door and the rest at it. */
  predicate Queued(reqs: seq<Request>, j: nat, d: nat) {
    forall i | j <= i < |reqs| :: reqs[i].phase == if i < j + d then Door else Arriving
  }

  /** j requests counted, d past the door, a at it. */
  ghost predicate Stage(s: State, j: nat, d: nat, a: nat) {
    && |s.reqs| == j + d + a && Queued(s.reqs, j, d)
    && |HoldersOf(s).conn| == j && HoldersOf(s).door == d
  }

  lemma ArriveStage(s: State, ip: IpAddr, j: nat, d: nat, cap: nat, workers: nat)
    requires Stage(s, j, d, 0)
    ensures Stage(Apply(s, Arrive(ip), cap, workers), j, d, 1)
  {
    ArriveStep(s, ip);
  }

  lemma QueueMoved(s: State, j: nat, d: nat, p: Phase)
    requires |s.reqs| == j + d + 1 && Queued(s.reqs, j, d) && p == Door
    ensures Queued(Moved(s, j + d, p).reqs, j, d + 1)
  {
  }

  /** Two holdings after a request moves to the door: one more there, none other. */
  lemma DoorGained(s: State, i: nat)
    requires i < |s.reqs| && s.reqs[i].phase == Arriving
    ensures |HoldersOf(Moved(s, i, Door)).conn| == |HoldersOf(s).conn|
    ensures HoldersOf(Moved(s, i, Door)).door == HoldersOf(s).door + 1
  {
    ConnMoved(s, i, Door);
    DoorMoved(s, i, Door);
  }

  lemma DoorOpens(s: State, i: nat, cap: nat, workers: nat)
    requires In(s, i, Arriving) && Sum(s.conns) < cap && HoldersOf(s).door < workers
    ensures Enabled(s, CheckDoor(i), cap, workers) && Apply(s, CheckDoor(i), cap, workers) == Moved(s, i, Door)
  {
  }

  lemma PassStage(s: State, j: nat, d: nat, cap: nat, workers: nat)
    requires Stage(s, j, d, 1) && Sum(s.conns) < cap && d < workers
    ensures Enabled(s, CheckDoor(j + d), cap, workers)
    ensures Stage(Apply(s, CheckDoor(j + d), cap, workers), j, d + 1, 0)
  {
    DoorOpens(s, j + d, cap, workers);
    QueueMoved(s, j, d, Door);
    DoorGained(s, j + d);
  }

  lemma CountStage(s: State, j: nat, d: nat, cap: nat, workers: nat)
    requires Stage(s, j, d, 0) && d > 0
    ensures Enabled(s, IncConn(j), cap, workers)
    ensures Stage(Apply(s, IncConn(j), cap, workers), j + 1, d - 1, 0)
  {
    ConnMoved(s, j, Half);
    DoorMoved(s, j, Half);
  }

  lemma Admit(s: State, ip: IpAddr, j: nat, d: nat, cap: nat, workers: nat) returns (t: State)
    requires Reachable(s, cap, workers) && Stage(s, j, d, 0) && j < cap && d < workers
    ensures Reachable(t, cap, workers) && Stage(t, j, d + 1, 0)
  {
    ArriveStage(s, ip, j, d, cap, workers);
    ReachStep(s, Arrive(ip), cap, workers);
    t := Apply(s, Arrive(ip), cap, workers);
    ReachableInv(t, cap, workers);
    SumCounts(t.conns, HoldersOf(t).conn);
    PassStage(t, j, d, cap, workers);
    ReachStep(t, CheckDoor(j + d), cap, workers);
    t := Apply(t, CheckDoor(j + d), cap, workers);
  }

  lemma CountIn(s: State, j: nat, d: nat, cap: nat, workers: nat) returns (t: State)
    requires Reachable(s, cap, workers) && Stage(s, j, d, 0) && d > 0
    ensures Reachable(t, cap, workers) && Stage(t, j + 1, d - 1, 0)
  {
    CountStage(s, j, d, cap, workers);
    ReachStep(s, IncConn(j), cap, workers);
    t := Apply(s, IncConn(j), cap, workers);
  }

  lemma {:induction false} Reach(ip: IpAddr, j: nat, d: nat, cap: nat, workers: nat) returns (s: State)
    requires cap > 0 && workers > 0
    requires if j < cap - 1 then d == 0 else j + d <= cap - 1 + workers
    ensures Reachable(s, cap, workers) && Stage(s, j, d, 0)
    decreases j, d
  {
    if j <= cap - 1 && d > 0 {
      s := Reach(ip, j, d - 1, cap, workers);
      s := Admit(s, ip, j, d - 1, cap, workers);
    } else if j == 0 {
      s := START;
      assert Possible(s, [], cap, workers) && After(s, [], cap, workers) == s;
    } else if j <= cap - 1 {
      s := Reach(ip, j - 1, 0, cap, workers);
      s := Admit(s, ip, j - 1, 0, cap, workers);
      s := CountIn(s, j - 1, 1, cap, workers);
    } else {
      s := Reach(ip, j - 1, d + 1, cap, workers);
      s := CountIn(s, j - 1, d + 1, cap, workers);
    }
  }

  /** Some run does reach cap + workers - 1, so `TotalBounded` cannot be improved. */
  lemma TotalBoundIsTight(ip: IpAddr, cap: nat, workers: nat)
    requires cap > 0 && workers > 0
    ensures exists s :: Reachable(s, cap, workers) && Sum(s.conns) == cap + workers - 1
  {
    var s := Reach(ip, cap - 1 + workers, 0, cap, workers);
    ReachableInv(s, cap, workers);
    SumCounts(s.conns, HoldersOf(s).conn);
  }

  // ---- The handlers ----

  /** A release undoes its own count exactly when the count was not negative before. */
  lemma ReleaseUndoes<K(!new)>(m: map<K, int>, k: K)
    ensures (forall j :: Count(Decremented(Incremented(m, k), k), j) == Count(m, j)) <==> Count(m, k) >= 0
  {
    var m' := Decremented(Incremented(m, k), k);
    assert Count(m', k) == Max(Count(m, k), 0);
    assert forall j | j != k :: Count(m', j) == Count(m, j);
  }

  /** What one request carries from its first handler to its last. */
  class WafCtx {
    var trackedIp: Option<IpAddr>

    constructor ()
      ensures trackedIp == None
    {
      trackedIp := None;
    }
  }

  class WafProxy {
    const conns: InFlight<IpAddr>
    const inFlight: InFlight<nat>
    const cap: nat

    constructor (cap: nat)
      ensures fresh(conns) && fresh(inFlight) && this.cap == cap
      ensures conns.inner == map[] && inFlight.inner == map[]
    {
      this.cap := cap;
      conns := new InFlight();
      inFlight := new InFlight();
    }

    /** `Engine::at_capacity` */
    method Full() returns (full: bool)
      ensures full <==> AtCapacity(conns.inner, cap)
    {
      if cap == 0 { return false; }
      var total := conns.Total();
      full := total >= cap;
    }

    /** The part of `request_filter` before the verdict: turned away at the door untracked, or
        counted under the address and its subnet and remembered for `Logging`. */
    method RequestFilter(ctx: WafCtx, ip: IpAddr) returns (turnedAway: bool)
      requires ctx.trackedIp == None
      modifies ctx, conns, inFlight
      ensures turnedAway <==> old(AtCapacity(conns.inner, cap))
      ensures ctx.trackedIp == if turnedAway then None else Some(ip)
      ensures conns.inner == if turnedAway then old(conns.inner) else Incremented(old(conns.inner), ip)
      ensures inFlight.inner
           == if turnedAway then old(inFlight.inner) else Incremented(old(inFlight.inner), SubnetKey(ip))
    {
      turnedAway := Full();
      if turnedAway { return; }
      ctx.trackedIp := Some(ip);
      var _ := conns.Inc(ip);
      var _ := inFlight.Inc(SubnetKey(ip));
    }

    /** Called once per request whatever became of it. */
    method Logging(ctx: WafCtx)
      modifies conns, inFlight
      ensures match ctx.trackedIp
        case Some(ip) =>
          && conns.inner == Decremented(old(conns.inner), ip)
          && inFlight.inner == Decremented(old(inFlight.inner), SubnetKey(ip))
        case None => conns.inner == old(conns.inner) && inFlight.inner == old(inFlight.inner)
    {
      match ctx.trackedIp
      case Some(ip) =>
        conns.Dec(ip);
        inFlight.Dec(SubnetKey(ip));
      case None =>
    }
  }
}
