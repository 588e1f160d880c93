/** The controller that raises and lowers the under-attack level by the rate of blocked requests,
    with a cooldown between changes. */
module AutoUam {
  import opened Words
  import Window

  const TOP: nat := 4
  const COOLDOWN: nat := 30
  const PERIOD: nat := 5

  /** Where the loop stands in its turn: waiting for the next one; with a rate measured at `now`; with
      the level loaded as well; or about to store another. */
  datatype Phase =
    | Waiting
    | Measured(rate: nat, now: nat)
    | Loaded(rate: nat, now: nat, cur: nat)
    | Storing(now: nat, cur: nat, next: nat)

  /** `level`, `enabled` and `threshold` are shared with the operator; the rest is the loop's own. */
  datatype State = State(level: nat, enabled: bool, threshold: nat, prevBlocks: nat, lastChange: nat, phase: Phase)

  /** The loop's accesses to what it shares, one by one, and the operator's. `Wake` loads the switch
      and sees the total number of blocks so far. A step out of its phase does nothing. */
  datatype Action =
    | Wake(blocks: nat, now: nat) | LoadLevel | LoadThreshold | Store
    | SetLevel(v: nat) | SetEnabled(on: bool) | SetThreshold(v: nat)

  /** Blocks per second since the previous turn, cut to 32 bits. */
  function Rate(s: State, blocks: nat): nat {
    SatSub(blocks, s.prevBlocks) / PERIOD % (U32_MAX + 1)
  }

  function Next(level: nat, rate: nat, threshold: nat): nat {
    if rate >= threshold && level < TOP then level + 1
    else if rate <= threshold / 4 && level > 0 then level - 1
    else level
  }

  predicate Cooled(s: State, now: nat) {
    SatSub(now, s.lastChange) >= COOLDOWN
  }

  function Woken(s: State, blocks: nat, now: nat): State {
    s.(prevBlocks := blocks,
       phase := if s.enabled && Cooled(s, now) then Measured(Rate(s, blocks), now) else Waiting)
  }

  function Apply(s: State, a: Action): State {
    match a
    case Wake(blocks, now) => if s.phase.Waiting? then Woken(s, blocks, now) else s
    case LoadLevel => if s.phase.Measured? then s.(phase := Loaded(s.phase.rate, s.phase.now, s.level)) else s
    case LoadThreshold =>
      if !s.phase.Loaded? then s
      else
        var next := Next(s.phase.cur, s.phase.rate, s.threshold);
        s.(phase := if next != s.phase.cur then Storing(s.phase.now, s.phase.cur, next) else Waiting)
    case Store =>
      if s.phase.Storing? then s.(level := s.phase.next, lastChange := s.phase.now, phase := Waiting) else s
    case SetLevel(v) => s.(level := Min(v, TOP))
    case SetEnabled(on) => s.(enabled := on)
    case SetThreshold(v) => s.(threshold := v)
  }

  function After(s: State, run: seq<Action>, n: nat): State
    requires n <= |run|
  {
    if n == 0 then s else Apply(After(s, run, n - 1), run[n - 1])
  }

  // ---- Range and step ----

  /** What the loop holds in hand is in range too. */
  predicate InRange(s: State) {
    && s.level <= TOP
    && (s.phase.Loaded? ==> s.phase.cur <= TOP)
    && (s.phase.Storing? ==> s.phase.cur <= TOP && s.phase.next <= TOP)
  }

  /** The level stays in range whatever the operator writes, and whenever. */
  lemma {:induction false} LevelInRange(s: State, run: seq<Action>, n: nat)
    requires s.level <= TOP && s.phase.Waiting? && n <= |run|
    ensures InRange(After(s, run, n))
  {
    if n > 0 { LevelInRange(s, run, n - 1); }
  }

  /** Does step i store a level? */
  predicate Changes(s: State, run: seq<Action>, i: nat)
    requires i < |run|
  {
    run[i].Store? && After(s, run, i).phase.Storing?
  }

  /** The step of the run that loaded the level the loop has in hand after n steps. */
  function LoadedAt(s: State, run: seq<Action>, n: nat): (k: nat)
    requires n <= |run|
    ensures k <= n
  {
    if n == 0 then 0
    else if run[n - 1].LoadLevel? && After(s, run, n - 1).phase.Measured? then n - 1
    else LoadedAt(s, run, n - 1)
  }

  /** The level the operator has written last in steps i..j, or `cur` if there is no such write. */
  function LastWritten(run: seq<Action>, i: nat, j: nat, cur: nat): nat
    requires j <= |run|
  {
    if j <= i then cur
    else if run[j - 1].SetLevel? then Min(run[j - 1].v, TOP)
    else LastWritten(run, i, j - 1, cur)
  }

  predicate HasLoaded(s: State) {
    s.phase.Loaded? || s.phase.Storing?
  }

  /** What the loop has in hand is the level as it was when it was loaded; the level itself is by now
      what the operator has made of it since. */
  lemma {:induction false} InHand(s: State, run: seq<Action>, n: nat)
    requires s.phase.Waiting? && n <= |run| && HasLoaded(After(s, run, n))
    ensures var (k, s') := (LoadedAt(s, run, n), After(s, run, n));
      && k < n && run[k].LoadLevel? && s'.phase.cur == After(s, run, k).level
      && s'.level == LastWritten(run, k + 1, n, s'.phase.cur)
  {
    if HasLoaded(After(s, run, n - 1)) { InHand(s, run, n - 1); }
  }

  lemma {:induction false} NeverStoresSame(s: State, run: seq<Action>, n: nat)
    requires s.phase.Waiting? && n <= |run|
    ensures var p := After(s, run, n).phase; p.Storing? ==> p.next == p.cur + 1 || p.next + 1 == p.cur
  {
    if n > 0 { NeverStoresSame(s, run, n - 1); }
  }

  /** A store moves the level by exactly one step exactly when, of the operator's writes since the level
      was loaded, the last one - if there is any - wrote the level that was loaded, or the one on the
      other side of what is stored. */
  lemma StoreMovesByOne(s: State, run: seq<Action>, n: nat)
    requires s.phase.Waiting? && n < |run| && Changes(s, run, n)
    ensures var p := After(s, run, n).phase;
            var last := LastWritten(run, LoadedAt(s, run, n) + 1, n, p.cur);
            var move := After(s, run, n + 1).level - After(s, run, n).level;
      move == 1 || move == -1 <==> last == p.cur || last - p.next == p.next - p.cur
  {
    InHand(s, run, n);
    NeverStoresSame(s, run, n);
  }

  /** Where a turn leaves the level: one step from the level it loaded if it stores, so that every
      write since the load is lost, and on the operator's last write since the load if it does not. */
  lemma WritesLostExactly(s: State, run: seq<Action>, n: nat)
    requires s.phase.Waiting? && n < |run|
    requires HasLoaded(After(s, run, n)) && After(s, run, n + 1).phase.Waiting?
    ensures var (k, level) := (LoadedAt(s, run, n), After(s, run, n + 1).level);
            var loaded := After(s, run, k).level;
      if Changes(s, run, n) then level == loaded + 1 || level + 1 == loaded
      else level == LastWritten(run, k + 1, n, loaded)
  {
    InHand(s, run, n);
    NeverStoresSame(s, run, n);
  }

  /** A turn in which the operator writes v at some point. */
  function WriteAfterLoad(blocks: nat, now: nat, v: nat): seq<Action> {
    [Wake(blocks, now), LoadLevel, LoadThreshold, SetLevel(v), Store]
  }

  function WriteBeforeLoad(blocks: nat, now: nat, v: nat): seq<Action> {
    [Wake(blocks, now), SetLevel(v), LoadLevel, LoadThreshold, Store]
  }

  /** Whatever the operator writes after the load is lost in a turn that stores, and stays in one that
      does not; a write before the load is the level the turn goes by. */
  lemma WriteBetweenIsLost(s: State, blocks: nat, now: nat, v: nat)
    requires s.enabled && s.phase.Waiting? && Cooled(s, now)
    ensures var (written, next) := (Min(v, TOP), Next(s.level, Rate(s, blocks), s.threshold));
      && After(s, WriteAfterLoad(blocks, now, v), 5).level == (if next != s.level then next else written)
      && After(s, WriteBeforeLoad(blocks, now, v), 5).level == Next(written, Rate(s, blocks), s.threshold)
  {
    var (lost, kept) := (WriteAfterLoad(blocks, now, v), WriteBeforeLoad(blocks, now, v));
    assert After(s, lost, 1) == After(s, kept, 1) == Woken(s, blocks, now);
    assert After(s, lost, 2) == Apply(After(s, lost, 1), LoadLevel);
    assert After(s, kept, 2) == Apply(After(s, kept, 1), SetLevel(v));
    assert After(s, lost, 3) == Apply(After(s, lost, 2), LoadThreshold);
    assert After(s, kept, 3) == Apply(After(s, kept, 2), LoadLevel);
    assert After(s, lost, 4) == Apply(After(s, lost, 3), SetLevel(v));
    assert After(s, kept, 4) == Apply(After(s, kept, 3), LoadThreshold);
  }

  /** So a panic write of 4 ends at 1 when it falls between the load and the store of a turn that goes
      down from 2, and at 3 when it falls before the load. */
  lemma PanicIsLost(s: State, now: nat)
    requires s.enabled && s.level == 2 && s.phase.Waiting? && Cooled(s, now) && s.threshold >= 1
    ensures After(s, WriteAfterLoad(s.prevBlocks, now, 4), 4).level == 4
    ensures After(s, WriteAfterLoad(s.prevBlocks, now, 4), 5).level == 1
    ensures After(s, WriteBeforeLoad(s.prevBlocks, now, 4), 5).level == 3
  {
    WriteBetweenIsLost(s, s.prevBlocks, now, 4);
    var run := WriteAfterLoad(s.prevBlocks, now, 4);
    assert After(s, run, 4) == Apply(After(s, run, 3), SetLevel(4));
  }

  // ---- How often the level changes ----

  /** The times of the turns whose stores are among the first n steps. */
  function ChangeTimes(s: State, run: seq<Action>, n: nat): seq<nat>
    requires n <= |run|
  {
    if n == 0 then []
    else
      var before := ChangeTimes(s, run, n - 1);
      if Changes(s, run, n - 1) then before + [After(s, run, n - 1).phase.now] else before
  }

  predicate Spaced(times: seq<nat>) {
    forall i | 0 < i < |times| :: times[i] >= times[i - 1] + COOLDOWN
  }

  /** A turn under way began a cooldown after the last change. */
  predicate Patient(s: State) {
    !s.phase.Waiting? ==> s.phase.now >= s.lastChange + COOLDOWN
  }

  lemma StepPatient(s: State, a: Action)
    requires Patient(s)
    ensures Patient(Apply(s, a))
    ensures !(a.Store? && s.phase.Storing?) ==> Apply(s, a).lastChange == s.lastChange
  {
  }

  /** The controller remembers when it last made a change. */
  predicate Remembers(times: seq<nat>, last: nat, start: nat) {
    Spaced(times) && last == if times == [] then start else times[|times| - 1]
  }

  lemma SpacedSnoc(times: seq<nat>, last: nat, start: nat, now: nat)
    requires Remembers(times, last, start) && now >= last + COOLDOWN
    ensures Remembers(times + [now], now, start)
  {
  }

  lemma {:induction false} ChangesSpaced(s: State, run: seq<Action>, n: nat)
    requires n <= |run| && s.phase.Waiting?
    ensures Patient(After(s, run, n))
    ensures Remembers(ChangeTimes(s, run, n), After(s, run, n).lastChange, s.lastChange)
  {
    if n > 0 {
      var (before, times) := (After(s, run, n - 1), ChangeTimes(s, run, n - 1));
      ChangesSpaced(s, run, n - 1);
      StepPatient(before, run[n - 1]);
      if Changes(s, run, n - 1) { SpacedSnoc(times, before.lastChange, s.lastChange, before.phase.now); }
    }
  }

  lemma {:induction false} SpacedApart(times: seq<nat>, i: nat, j: nat)
    requires Spaced(times) && i <= j < |times|
    ensures times[j] >= times[i] + COOLDOWN * (j - i)
    decreases j
  {
    if i < j { SpacedApart(times, i, j - 1); }
  }

  /** The n integers from a on. */
  function Interval(a: int, n: nat): (r: set<int>)
    ensures |r| == n && forall i :: i in r <==> a <= i < a + n
  {
    if n == 0 then {} else Interval(a, n - 1) + {a + n - 1}
  }

  /** The first index from which on the times are at least t. */
  lemma First(times: seq<nat>, t: nat) returns (m: nat)
    requires Spaced(times)
    ensures m <= |times| && (forall i | 0 <= i < m :: times[i] < t) && (m < |times| ==> times[m] >= t)
  {
    m := 0;
    while m < |times| && times[m] < t
      invariant m <= |times| && forall i | 0 <= i < m :: times[i] < t
    {
      m := m + 1;
    }
  }

  /** Times a cooldown apart: at most 1 + length / 30 of them in any interval. */
  lemma SpacedCount(times: seq<nat>, t: nat, length: nat)
    requires Spaced(times)
    ensures Window.TimesIn(times, t, t + length) <= 1 + length / COOLDOWN
  {
    var first := First(times, t);
    var most := 1 + length / COOLDOWN;
    var inside: set<int> := set i | 0 <= i < |times| && t <= times[i] <= t + length;
    forall i | i in inside
      ensures first <= i < first + most
    {
      SpacedApart(times, first, i);
    }
    Window.SubsetSize(inside, Interval(first, most));
  }

  /** The loop stores a level at most 1 + T / 30 times in any T seconds, whatever the operator does
      and whenever. */
  lemma FewChanges(s: State, run: seq<Action>, t: nat, length: nat)
    requires s.phase.Waiting?
    ensures Window.TimesIn(ChangeTimes(s, run, |run|), t, t + length) <= 1 + length / COOLDOWN
  {
    ChangesSpaced(s, run, |run|);
    SpacedCount(ChangeTimes(s, run, |run|), t, length);
  }

  // ---- Turns nobody disturbs ----

  datatype Turn = Turn(blocks: nat, now: nat)

  /** A whole turn at once. */
  function Ticked(s: State, blocks: nat, now: nat): State {
    var s' := s.(prevBlocks := blocks);
    if !s.enabled || !Cooled(s, now) then s'
    else
      var next := Next(s.level, Rate(s, blocks), s.threshold);
      if next != s.level then s'.(level := next, lastChange := now) else s'
  }

  function TurnSteps(t: Turn): seq<Action> {
    [Wake(t.blocks, t.now), LoadLevel, LoadThreshold, Store]
  }

  lemma UndisturbedTurn(s: State, t: Turn)
    requires s.phase.Waiting?
    ensures After(s, TurnSteps(t), 4) == Ticked(s, t.blocks, t.now)
  {
    var run := TurnSteps(t);
    assert After(s, run, 1) == Woken(s, t.blocks, t.now);
    assert After(s, run, 2) == Apply(After(s, run, 1), LoadLevel);
    assert After(s, run, 3) == Apply(After(s, run, 2), LoadThreshold);
  }

  /** The steps of the first n turns, and the state after those turns. */
  function AllSteps(turns: seq<Turn>, n: nat): (run: seq<Action>)
    requires n <= |turns|
    ensures |run| == 4 * n
  {
    if n == 0 then [] else AllSteps(turns, n - 1) + TurnSteps(turns[n - 1])
  }

  function AfterTurns(s: State, turns: seq<Turn>, n: nat): State
    requires n <= |turns|
  {
    if n == 0 then s else Ticked(AfterTurns(s, turns, n - 1), turns[n - 1].blocks, turns[n - 1].now)
  }

  lemma {:induction false} AfterConcat(s: State, a: seq<Action>, b: seq<Action>, k: nat)
    requires k <= |b|
    ensures After(s, a + b, |a| + k) == After(After(s, a, |a|), b, k)
  {
    if k == 0 { AfterPrefix(s, a, b, |a|); } else { AfterConcat(s, a, b, k - 1); }
  }

  lemma {:induction false} AfterPrefix(s: State, a: seq<Action>, b: seq<Action>, k: nat)
    requires k <= |a|
    ensures After(s, a + b, k) == After(s, a, k)
  {
    if k > 0 { AfterPrefix(s, a, b, k - 1); }
  }

  /** Turns taken step by step without an operator's write in between come to the turns taken whole. */
  lemma {:induction false} TurnsAreSteps(s: State, turns: seq<Turn>, n: nat)
    requires s.phase.Waiting? && n <= |turns|
    ensures After(s, AllSteps(turns, n), 4 * n) == AfterTurns(s, turns, n) && AfterTurns(s, turns, n).phase.Waiting?
  {
    if n > 0 {
      TurnsAreSteps(s, turns, n - 1);
      AfterConcat(s, AllSteps(turns, n - 1), TurnSteps(turns[n - 1]), 4);
      UndisturbedTurn(AfterTurns(s, turns, n - 1), turns[n - 1]);
    }
  }

  // ---- Sustained load, sustained calm ----

  /** How far the level is from where a sustained rate drives it. */
  function Distance(s: State, high: bool): int {
    if high then TOP - s.level else s.level
  }

  predicate Drives(s: State, blocks: nat, high: bool) {
    if high then Rate(s, blocks) >= s.threshold else Rate(s, blocks) <= s.threshold / 4
  }

  /** Nobody but the loop acts, its turns come at most `gap` seconds apart, and every one of them
      sees a rate that drives the level the same way. */
  predicate Sustained(s: State, turns: seq<Turn>, high: bool, gap: nat) {
    && s.enabled && s.threshold >= 1 && s.level <= TOP && s.phase.Waiting?
    && (forall i | 0 < i < |turns| :: turns[i - 1].now <= turns[i].now <= turns[i - 1].now + gap)
    && (|turns| > 0 ==> s.lastChange <= turns[0].now)
    && (forall i | 0 <= i < |turns| :: Drives(AfterTurns(s, turns, i), turns[i].blocks, high))
  }

  lemma TickDrives(s: State, blocks: nat, now: nat, high: bool)
    requires s.enabled && s.threshold >= 1 && s.level <= TOP && Drives(s, blocks, high)
    ensures var s' := Ticked(s, blocks, now);
      && s'.enabled && s'.threshold == s.threshold && s'.level <= TOP
      && if Distance(s, high) > 0 && Cooled(s, now)
         then Distance(s', high) == Distance(s, high) - 1 && s'.lastChange == now
         else Distance(s', high) == Distance(s, high) && s'.lastChange == s.lastChange
  {
  }

  /** The time k steps take at the longest. */
  function Steps(k: int, gap: nat): int {
    if k <= 0 then 0 else Steps(k - 1, gap) + COOLDOWN + gap
  }

  /** Where the level stands after a turn at `now`, having started d steps from home before t0:
      driven home, or cooling down after its latest step, with a step at least every 30 + gap
      seconds so far. */
  predicate Underway(s: State, high: bool, gap: nat, d: int, t0: nat, now: nat) {
    && s.enabled && s.threshold >= 1 && s.level <= TOP
    && 0 <= Distance(s, high) <= d && s.lastChange <= now
    && (Distance(s, high) > 0 ==> now < s.lastChange + COOLDOWN)
    && s.lastChange <= t0 + Steps(d - Distance(s, high), gap)
  }

  lemma FirstTurn(s: State, blocks: nat, now: nat, high: bool, gap: nat)
    requires s.enabled && s.threshold >= 1 && s.level <= TOP && s.lastChange <= now && Drives(s, blocks, high)
    ensures Underway(Ticked(s, blocks, now), high, gap, Distance(s, high), now, now)
  {
    TickDrives(s, blocks, now, high);
    assert Steps(1, gap) == Steps(0, gap) + COOLDOWN + gap;
  }

  lemma NextTurn(s: State, blocks: nat, now: nat, high: bool, gap: nat, d: int, t0: nat, before: nat)
    requires Underway(s, high, gap, d, t0, before) && before <= now <= before + gap && Drives(s, blocks, high)
    ensures Underway(Ticked(s, blocks, now), high, gap, d, t0, now)
  {
    TickDrives(s, blocks, now, high);
    var k := d - Distance(s, high);
    assert Steps(k + 1, gap) == Steps(k, gap) + COOLDOWN + gap;
  }

  lemma {:induction false} Progress(s: State, turns: seq<Turn>, high: bool, gap: nat, n: nat)
    requires Sustained(s, turns, high, gap) && 0 < n <= |turns|
    ensures Underway(AfterTurns(s, turns, n), high, gap, Distance(s, high), turns[0].now, turns[n - 1].now)
  {
    var (before, t) := (AfterTurns(s, turns, n - 1), turns[n - 1]);
    assert Drives(before, t.blocks, high);
    if n == 1 {
      FirstTurn(before, t.blocks, t.now, high, gap);
    } else {
      Progress(s, turns, high, gap, n - 1);
      assert turns[n - 2].now <= t.now <= turns[n - 2].now + gap;
      NextTurn(before, t.blocks, t.now, high, gap, Distance(s, high), turns[0].now, turns[n - 2].now);
    }
  }

  lemma StepsBounded(k: int, gap: nat)
    requires k < TOP
    ensures Steps(k, gap) + COOLDOWN <= TOP * (COOLDOWN + gap)
  {
    assert Steps(1, gap) == COOLDOWN + gap;
    assert Steps(2, gap) == Steps(1, gap) + COOLDOWN + gap;
    assert Steps(3, gap) == Steps(2, gap) + COOLDOWN + gap;
  }

  lemma HomeInTime(s: State, high: bool, gap: nat, d: int, t0: nat, now: nat)
    requires Underway(s, high, gap, d, t0, now) && d <= TOP && now >= t0 + TOP * (COOLDOWN + gap)
    ensures Distance(s, high) == 0
  {
    if Distance(s, high) > 0 { StepsBounded(d - Distance(s, high), gap); }
  }

  /** A rate sustained at or above the threshold drives the level to the top, one sustained at or
      below a quarter of it drives the level to zero, within four cooldowns and four turns of the
      loop - 140 seconds at one turn every 5 - and there it stays as long as the rate lasts. */
  lemma DrivenHome(s: State, turns: seq<Turn>, high: bool, gap: nat, n: nat)
    requires Sustained(s, turns, high, gap) && 0 < n <= |turns|
    requires turns[n - 1].now >= turns[0].now + TOP * (COOLDOWN + gap)
    ensures After(s, AllSteps(turns, n), 4 * n).level == if high then TOP else 0
  {
    Progress(s, turns, high, gap, n);
    HomeInTime(AfterTurns(s, turns, n), high, gap, Distance(s, high), turns[0].now, turns[n - 1].now);
    TurnsAreSteps(s, turns, n);
  }

  /** The threshold must be at least 1: at zero, calm counts as an attack and an attack as calm,
      and the level leaves the top as soon as the cooldown allows. */
  lemma TopIsStable(threshold: nat)
    ensures (forall rate | rate >= threshold :: Next(TOP, rate, threshold) == TOP) <==> threshold >= 1
  {
    if threshold == 0 {
      assert Next(TOP, 0, threshold) == TOP - 1;
    }
  }

  // ---- In blocked requests ----

  /** The requests blocked since the previous turn. */
  function Since(s: State, blocks: nat): nat {
    SatSub(blocks, s.prevBlocks)
  }

  /** A turn lasts five seconds: the rate reaches k when five times k requests were blocked since the
      previous one. */
  lemma RateInBlocks(s: State, blocks: nat, k: nat)
    requires Since(s, blocks) <= 5 * U32_MAX
    ensures Rate(s, blocks) >= k <==> Since(s, blocks) >= 5 * k
  {
  }

  /** One turn, in blocked requests: no change while switched off or within 30 seconds of the last one; else
      a level up at five times the threshold or more, a level down below five times what is just above a
      quarter of it; and whatever becomes of the level, the next turn counts from here. */
  lemma TurnInBlocks(s: State, blocks: nat, now: nat)
    requires Since(s, blocks) <= 5 * U32_MAX && s.level <= 4
    ensures var (s', n) := (Ticked(s, blocks, now), Since(s, blocks));
      && s'.prevBlocks == blocks && s'.enabled == s.enabled && s'.threshold == s.threshold
      && s'.level == (if !s.enabled || now < s.lastChange + 30 then s.level
                      else if n >= 5 * s.threshold && s.level < 4 then s.level + 1
                      else if n < 5 * (s.threshold / 4 + 1) && s.level > 0 then s.level - 1
                      else s.level)
      && s'.lastChange == if s'.level != s.level then now else s.lastChange
  {
    RateInBlocks(s, blocks, s.threshold);
    RateInBlocks(s, blocks, s.threshold / 4 + 1);
  }

  /** In steps as well, disturbed or not: every turn that begins leaves the count at what it saw, and no
      other step touches it. */
  lemma CountFollows(s: State, a: Action)
    ensures Apply(s, a).prevBlocks == if a.Wake? && s.phase.Waiting? then a.blocks else s.prevBlocks
  {
  }

  function BlocksBefore(s: State, turns: seq<Turn>, i: nat): nat
    requires i <= |turns|
  {
    if i == 0 then s.prevBlocks else turns[i - 1].blocks
  }

  lemma {:induction false} TurnsKeep(s: State, turns: seq<Turn>, n: nat)
    requires n <= |turns|
    ensures var s' := AfterTurns(s, turns, n);
      && s'.prevBlocks == BlocksBefore(s, turns, n) && s'.threshold == s.threshold && s'.enabled == s.enabled
      && s'.phase == s.phase
  {
    if n > 0 { TurnsKeep(s, turns, n - 1); }
  }

  /** Between any two turns enough requests are blocked to drive the level up, or few enough to drive it
      down. */
  predicate BlocksDrive(s: State, turns: seq<Turn>, high: bool) {
    forall i | 0 <= i < |turns| ::
      var n := turns[i].blocks - BlocksBefore(s, turns, i);
      0 <= n <= 5 * U32_MAX && if high then n >= 5 * s.threshold else n < 5 * (s.threshold / 4 + 1)
  }

  predicate Regularly(s: State, turns: seq<Turn>, gap: nat) {
    && s.enabled && s.threshold >= 1 && s.level <= TOP && s.phase.Waiting?
    && (forall i | 0 < i < |turns| :: turns[i - 1].now <= turns[i].now <= turns[i - 1].now + gap)
    && (|turns| > 0 ==> s.lastChange <= turns[0].now)
  }

  lemma BlocksSustain(s: State, turns: seq<Turn>, high: bool, gap: nat)
    requires Regularly(s, turns, gap) && BlocksDrive(s, turns, high)
    ensures Sustained(s, turns, high, gap)
  {
    forall i | 0 <= i < |turns|
      ensures Drives(AfterTurns(s, turns, i), turns[i].blocks, high)
    {
      TurnsKeep(s, turns, i);
      RateInBlocks(AfterTurns(s, turns, i), turns[i].blocks, s.threshold);
      RateInBlocks(AfterTurns(s, turns, i), turns[i].blocks, s.threshold / 4 + 1);
    }
  }

  /** Five times the threshold blocked from each turn to the next drives the level to the top, fewer than
      five times what is just above a quarter of it drive it to zero, within four cooldowns and four turns. */
  lemma DrivenByBlocks(s: State, turns: seq<Turn>, high: bool, gap: nat, n: nat)
    requires Regularly(s, turns, gap) && BlocksDrive(s, turns, high) && 0 < n <= |turns|
    requires turns[n - 1].now >= turns[0].now + 4 * (30 + gap)
    ensures After(s, AllSteps(turns, n), 4 * n).level == if high then 4 else 0
  {
    BlocksSustain(s, turns, high, gap);
    DrivenHome(s, turns, high, gap, n);
  }

  /** Neither enough nor few enough requests are blocked before turn i. */
  predicate Between(s: State, turns: seq<Turn>, i: nat)
    requires i < |turns|
  {
    var n := turns[i].blocks - BlocksBefore(s, turns, i);
    5 * (s.threshold / 4 + 1) <= n < 5 * s.threshold && n <= 5 * U32_MAX
  }

  /** In between it stays where it is, for as long as that lasts. */
  lemma {:induction false} SteadyInBetween(s: State, turns: seq<Turn>, n: nat)
    requires n <= |turns| && s.level <= 4
    requires forall i | 0 <= i < n :: Between(s, turns, i)
    ensures AfterTurns(s, turns, n).level == s.level
  {
    if n > 0 {
      SteadyInBetween(s, turns, n - 1);
      TurnsKeep(s, turns, n - 1);
      assert Between(s, turns, n - 1);
      TurnInBlocks(AfterTurns(s, turns, n - 1), turns[n - 1].blocks, turns[n - 1].now);
    }
  }

  /** The operator sets any level up to the top, the switch and the threshold, each alone and at once. */
  lemma OperatorSets(s: State, v: nat, on: bool)
    ensures Apply(s, SetLevel(v)) == s.(level := if v <= 4 then v else 4)
    ensures Apply(s, SetEnabled(on)) == s.(enabled := on)
    ensures Apply(s, SetThreshold(v)) == s.(threshold := v)
  {
  }

  // ---- The running loop ----

  /** The settings the loop and the operator share, and the loop's own variables, updated in place one
      access at a time. */
  class AutoUamService {
    var level: nat
    var enabled: bool
    var threshold: nat
    var prevBlocks: nat
    var lastChange: nat
    var phase: Phase

    ghost function Snapshot(): State
      reads this
    {
      State(level, enabled, threshold, prevBlocks, lastChange, phase)
    }

    constructor (level: nat, enabled: bool, threshold: nat, blocks: nat)
      ensures Snapshot() == State(level, enabled, threshold, blocks, 0, Waiting)
    {
      this.level, this.enabled, this.threshold := level, enabled, threshold;
      prevBlocks, lastChange, phase := blocks, 0, Waiting;
    }

    method Begin(blocked: nat, now: nat)
      requires phase.Waiting?
      modifies this
      ensures Snapshot() == Apply(old(Snapshot()), Wake(blocked, now))
    {
      if !enabled {
        prevBlocks := blocked;
        return;
      }
      var delta := SatSub(blocked, prevBlocks);
      var bps := delta / 5 % (U32_MAX + 1);
      prevBlocks := blocked;
      if SatSub(now, lastChange) < 30 { return; }
      phase := Measured(bps, now);
    }

    method ReadLevel()
      requires phase.Measured?
      modifies this
      ensures Snapshot() == Apply(old(Snapshot()), LoadLevel)
    {
      phase := Loaded(phase.rate, phase.now, level);
    }

    method ReadThreshold()
      requires phase.Loaded?
      modifies this
      ensures Snapshot() == Apply(old(Snapshot()), LoadThreshold)
    {
      var cur, bps := phase.cur, phase.rate;
      var next := cur;
      if bps >= threshold && cur < 4 { next := cur + 1; }
      else if bps <= threshold / 4 && cur > 0 { next := cur - 1; }
      phase := if next != cur then Storing(phase.now, cur, next) else Waiting;
    }

    method WriteLevel()
      requires phase.Storing?
      modifies this
      ensures Snapshot() == Apply(old(Snapshot()), Store)
    {
      level := phase.next;
      lastChange := phase.now;
      phase := Waiting;
    }

    /** One turn of the loop that nobody disturbs. */
    method Turn(blocked: nat, now: nat)
      requires phase.Waiting?
      modifies this
      ensures Snapshot() == Ticked(old(Snapshot()), blocked, now)
    {
      Begin(blocked, now);
      if phase.Waiting? { return; }
      ReadLevel();
      ReadThreshold();
      if phase.Storing? { WriteLevel(); }
    }

    /** The operator's write; it may fall anywhere in a turn. */
    method PostUam(v: nat)
      modifies this
      ensures Snapshot() == Apply(old(Snapshot()), SetLevel(v))
    {
      level := if v < 4 then v else 4;
    }
  }
}
