/** The bounded in-memory event log, and the cursor with which a dashboard stream follows it. */
module Events {
  import opened Words

  /** `ts` is the time of the event in milliseconds. */
  datatype Event<X> = Event(ts: nat, x: X)

  const BATCH: nat := 200

  /** How many of the oldest events a log of capacity cap has dropped after n records. A capacity of
      zero never drops anything: the length is already past it when the next event comes. */
  function Evicted(n: nat, cap: nat): nat {
    if cap == 0 then 0 else SatSub(n, cap)
  }

  function Kept<X>(all: seq<Event<X>>, cap: nat): seq<Event<X>> {
    all[Evicted(|all|, cap)..]
  }

  predicate Ordered<X>(all: seq<Event<X>>) {
    forall i, j | 0 <= i < j < |all| :: all[i].ts <= all[j].ts
  }

  /** The events of q newer than `ts`, oldest first, at most `max` of them. */
  function Newer<X>(q: seq<Event<X>>, ts: nat, max: nat): seq<Event<X>> {
    if q == [] || max == 0 then []
    else if q[0].ts > ts then [q[0]] + Newer(q[1..], ts, max - 1)
    else Newer(q[1..], ts, max)
  }

  function Reversed<X>(q: seq<X>): seq<X> {
    if q == [] then [] else [q[|q| - 1]] + Reversed(q[..|q| - 1])
  }

  lemma ReversedLast<X>(q: seq<X>, lo: nat, hi: nat)
    requires lo < hi <= |q|
    ensures Reversed(q[lo..hi]) == [q[hi - 1]] + Reversed(q[lo..hi - 1])
  {
    assert q[lo..hi][..hi - lo - 1] == q[lo..hi - 1];
  }

  /** One element moves from the stretch still to be reversed to the reversed one. */
  lemma BackOne<X>(r: seq<X>, q: seq<X>, lo: nat, hi: nat)
    requires lo < hi <= |q|
    ensures (r + [q[hi - 1]]) + Reversed(q[lo..hi - 1]) == r + Reversed(q[lo..hi])
  {
    ReversedLast(q, lo, hi);
  }

  /** Newest first: the k-th from the end comes k-th. */
  lemma {:induction false} ReversedAt<X>(q: seq<X>, k: nat)
    requires k < |q|
    ensures |Reversed(q)| == |q| && Reversed(q)[k] == q[|q| - 1 - k]
  {
    ReversedLength(q);
    if k > 0 { ReversedAt(q[..|q| - 1], k - 1); }
  }

  lemma {:induction false} ReversedLength<X>(q: seq<X>)
    ensures |Reversed(q)| == |q|
  {
    if q != [] { ReversedLength(q[..|q| - 1]); }
  }

  /** The log keeps the latest events, as many as it has room for; one without a capacity keeps them all. */
  lemma KeepsLatest<X>(all: seq<Event<X>>, cap: nat)
    ensures var kept := Kept(all, cap);
      && |kept| == (if cap == 0 then |all| else Min(cap, |all|))
      && kept == all[|all| - |kept|..]
  {
  }

  /** The first index from i on of an event newer than ts. */
  function FirstNewer<X>(all: seq<Event<X>>, i: nat, ts: nat): (j: nat)
    requires i <= |all|
    ensures i <= j <= |all| && (forall k | i <= k < j :: all[k].ts <= ts) && (j < |all| ==> all[j].ts > ts)
    decreases |all| - i
  {
    if i == |all| || all[i].ts > ts then i else FirstNewer(all, i + 1, ts)
  }

  /** One more event of the log moves into the answer or is passed over. */
  lemma NewerStep<X>(r: seq<Event<X>>, q: seq<Event<X>>, i: nat, ts: nat, max: nat)
    requires i < |q| && max > 0
    ensures r + Newer(q[i..], ts, max)
         == if q[i].ts > ts then (r + [q[i]]) + Newer(q[i + 1..], ts, max - 1) else r + Newer(q[i + 1..], ts, max)
  {
    assert q[i..][1..] == q[i + 1..];
  }

  lemma {:induction false} NewerTake<X>(q: seq<Event<X>>, ts: nat, max: nat)
    requires forall i | 0 <= i < |q| :: q[i].ts > ts
    ensures Newer(q, ts, max) == q[..Min(max, |q|)]
  {
    if q != [] && max > 0 {
      NewerTake(q[1..], ts, max - 1);
      assert q[..Min(max, |q|)] == [q[0]] + q[1..][..Min(max - 1, |q| - 1)];
    }
  }

  lemma {:induction false} NewerSkip<X>(q: seq<Event<X>>, ts: nat, max: nat, j: nat)
    requires j <= |q| && forall i | 0 <= i < j :: q[i].ts <= ts
    ensures Newer(q, ts, max) == Newer(q[j..], ts, max)
  {
    if j > 0 && max > 0 {
      NewerSkip(q[1..], ts, max, j - 1);
      assert q[1..][j - 1..] == q[j..];
    } else if j == 0 {
      assert q[0..] == q;
    }
  }

  lemma Slices<X>(q: seq<X>, i: nat, j: nat, max: nat)
    requires i <= j <= |q|
    ensures q[i..][j - i..] == q[j..] && q[j..][..Min(max, |q| - j)] == q[j..Min(j + max, |q|)]
  {
  }

  lemma TailNewer<X>(all: seq<Event<X>>, j: nat, ts: nat)
    requires Ordered(all) && j <= |all| && (j < |all| ==> all[j].ts > ts)
    ensures forall k | 0 <= k < |all[j..]| :: all[j..][k].ts > ts
  {
    forall k | 0 <= k < |all[j..]|
      ensures all[j..][k].ts > ts
    {
      assert all[j].ts <= all[j + k].ts;
    }
  }

  lemma NewerAt<X>(all: seq<Event<X>>, j: nat, ts: nat, max: nat)
    requires Ordered(all) && j <= |all| && (j < |all| ==> all[j].ts > ts)
    ensures Newer(all[j..], ts, max) == all[j..Min(j + max, |all|)]
  {
    TailNewer(all, j, ts);
    NewerTake(all[j..], ts, max);
    Slices(all, j, j, max);
  }

  lemma HeadOlder<X>(all: seq<Event<X>>, i: nat, j: nat, ts: nat)
    requires i <= j <= |all| && forall k | i <= k < j :: all[k].ts <= ts
    ensures forall k | 0 <= k < j - i :: all[i..][k].ts <= ts
  {
  }

  lemma NewerFrom<X>(all: seq<Event<X>>, i: nat, j: nat, ts: nat, max: nat)
    requires i <= j <= |all| && forall k | i <= k < j :: all[k].ts <= ts
    ensures Newer(all[i..], ts, max) == Newer(all[j..], ts, max)
  {
    HeadOlder(all, i, j, ts);
    NewerSkip(all[i..], ts, max, j - i);
    Slices(all, i, j, max);
  }

  /** In a log ordered by time the newer events are one contiguous stretch of it. */
  lemma NewerIsSlice<X>(all: seq<Event<X>>, i: nat, j: nat, ts: nat, max: nat)
    requires Ordered(all) && i <= j <= |all|
    requires (forall k | i <= k < j :: all[k].ts <= ts) && (j < |all| ==> all[j].ts > ts)
    ensures Newer(all[i..], ts, max) == all[j..Min(j + max, |all|)]
  {
    calc {
      Newer(all[i..], ts, max);
      { NewerFrom(all, i, j, ts, max); }
      Newer(all[j..], ts, max);
      { NewerAt(all, j, ts, max); }
      all[j..Min(j + max, |all|)];
    }
  }

  // ---- One stream following the log ----

  /** One poll that returned something: how many events had been evicted, the cursor before and
      after, and the index just past the last event returned. */
  datatype Poll = Poll(evicted: nat, before: nat, after: nat, next: nat)

  /** `all` is every event ever recorded, `sent` the indices returned on this stream so far. */
  datatype State<X> = State(all: seq<Event<X>>, cursor: nat, sent: seq<nat>, polls: seq<Poll>)

  datatype Action<X> = Record(e: Event<X>) | Ask

  function Range(lo: nat, hi: nat): seq<nat>
    requires lo <= hi
  {
    seq(hi - lo, i requires 0 <= i < hi - lo => lo + i)
  }

  function Polled<X>(s: State<X>, cap: nat): State<X> {
    var from := Evicted(|s.all|, cap);
    var j := FirstNewer(s.all, from, s.cursor);
    var m := Min(j + BATCH, |s.all|);
    if m == j then s
    else State(s.all, s.all[m - 1].ts, s.sent + Range(j, m), s.polls + [Poll(from, s.cursor, s.all[m - 1].ts, m)])
  }

  function Apply<X>(s: State<X>, a: Action<X>, cap: nat): State<X> {
    match a
    case Record(e) => s.(all := s.all + [e])
    case Ask => Polled(s, cap)
  }

  function After<X>(run: seq<Action<X>>, n: nat, cap: nat): State<X>
    requires n <= |run|
  {
    if n == 0 then State([], 0, [], []) else Apply(After(run, n - 1, cap), run[n - 1], cap)
  }

  predicate Increasing(xs: seq<nat>) {
    forall i, j | 0 <= i < j < |xs| :: xs[i] < xs[j]
  }

  /** Event i was gone from the log before the poll that would have returned it. */
  predicate Missed<X>(p: Poll, all: seq<Event<X>>, i: nat)
    requires i < |all|
  {
    i < p.evicted && p.before < all[i].ts <= p.after
  }

  /** Event i bears the very millisecond at which the poll left the cursor, but comes after the last
      event that poll returned. */
  predicate Tied<X>(p: Poll, all: seq<Event<X>>, i: nat)
    requires i < |all|
  {
    p.next <= i && all[i].ts == p.after
  }

  ghost predicate Lost<X>(polls: seq<Poll>, all: seq<Event<X>>, i: nat)
    requires i < |all|
  {
    exists k :: 0 <= k < |polls| && (Missed(polls[k], all, i) || Tied(polls[k], all, i))
  }

  /** The poll left the cursor there, returning nothing from index n on. */
  predicate Left(p: Poll, cursor: nat, n: nat) {
    p.after == cursor && p.next <= n
  }

  predicate Cursor(polls: seq<Poll>, cursor: nat, n: nat) {
    cursor == 0 || exists k :: 0 <= k < |polls| && Left(polls[k], cursor, n)
  }

  predicate Passed<X>(s: State<X>, k: nat)
    requires k < |s.sent|
  {
    s.sent[k] < |s.all| && s.all[s.sent[k]].ts <= s.cursor
  }

  ghost predicate Inv<X>(s: State<X>) {
    && Ordered(s.all) && (forall i | 0 <= i < |s.all| :: s.all[i].ts > 0)
    && Increasing(s.sent) && (forall k {:trigger s.sent[k]} | 0 <= k < |s.sent| :: Passed(s, k))
    && Cursor(s.polls, s.cursor, |s.all|)
    && (forall i: nat | i < |s.all| && s.all[i].ts <= s.cursor && i !in s.sent :: Lost(s.polls, s.all, i))
  }

  lemma LostStays<X>(polls: seq<Poll>, all: seq<Event<X>>, i: nat, polls': seq<Poll>, all': seq<Event<X>>)
    requires i < |all| && Lost(polls, all, i)
    ensures Lost(polls + polls', all + all', i)
  {
    var k :| 0 <= k < |polls| && (Missed(polls[k], all, i) || Tied(polls[k], all, i));
    assert (polls + polls')[k] == polls[k] && (all + all')[i] == all[i];
  }

  lemma LastPoll(polls: seq<Poll>, cursor: nat, n: nat) returns (k: nat)
    requires Cursor(polls, cursor, n) && cursor != 0
    ensures k < |polls| && Left(polls[k], cursor, n)
  {
    k :| 0 <= k < |polls| && Left(polls[k], cursor, n);
  }

  lemma CursorStays(polls: seq<Poll>, cursor: nat, n: nat, n': nat)
    requires Cursor(polls, cursor, n) && n <= n'
    ensures Cursor(polls, cursor, n')
  {
    if cursor != 0 {
      var k := LastPoll(polls, cursor, n);
      assert Left(polls[k], cursor, n');
    }
  }

  lemma RecordLoses<X>(s: State<X>, e: Event<X>, i: nat)
    requires Inv(s) && e.ts > 0 && e.ts >= s.cursor
    requires var all' := s.all + [e]; i < |all'| && all'[i].ts <= s.cursor && i !in s.sent
    ensures Lost(s.polls, s.all + [e], i)
  {
    if i < |s.all| {
      LostStays(s.polls, s.all, i, [], [e]);
      assert s.polls + [] == s.polls;
    } else {
      var k := LastPoll(s.polls, s.cursor, |s.all|);
      assert Tied(s.polls[k], s.all + [e], i);
    }
  }

  lemma RecordKeeps<X>(s: State<X>, e: Event<X>)
    requires Inv(s) && e.ts > 0 && Bounded(s, e.ts)
    ensures Inv(s.(all := s.all + [e]))
  {
    var s' := s.(all := s.all + [e]);
    CursorStays(s.polls, s.cursor, |s.all|, |s'.all|);
    forall k | 0 <= k < |s'.sent|
      ensures Passed(s', k)
    {
      assert Passed(s, k);
    }
    forall i: nat | i < |s'.all| && s'.all[i].ts <= s.cursor && i !in s.sent
      ensures Lost(s.polls, s'.all, i)
    {
      RecordLoses(s, e, i);
    }
  }

  lemma SentGrows<X>(s: State<X>, cap: nat)
    requires Inv(s)
    ensures Increasing(Polled(s, cap).sent)
  {
    var j := FirstNewer(s.all, Evicted(|s.all|, cap), s.cursor);
    forall k | 0 <= k < |s.sent| && j < |s.all|
      ensures s.sent[k] < j
    {
      assert s.all[s.sent[k]].ts <= s.cursor < s.all[j].ts;
    }
  }

  /** Whatever a poll passes over, it had no way to return, or ties with its last event. */
  lemma PollLoses<X>(s: State<X>, cap: nat, i: nat)
    requires Inv(s) && i < |s.all|
    requires var s' := Polled(s, cap); s.all[i].ts <= s'.cursor && i !in s'.sent
    ensures Lost(Polled(s, cap).polls, s.all, i)
  {
    var s' := Polled(s, cap);
    var from := Evicted(|s.all|, cap);
    var j := FirstNewer(s.all, from, s.cursor);
    var m := Min(j + BATCH, |s.all|);
    if s.all[i].ts <= s.cursor {
      assert i !in s.sent;
      LostStays(s.polls, s.all, i, s'.polls[|s.polls|..], []);
      assert s.polls + s'.polls[|s.polls|..] == s'.polls && s.all + [] == s.all;
    } else {
      var p := s'.polls[|s.polls|];
      forall k: nat | j <= k < m
        ensures k in s'.sent
      {
        assert s'.sent[|s.sent| + (k - j)] == k;
      }
      assert Missed(p, s.all, i) || Tied(p, s.all, i);
    }
  }

  lemma PollPasses<X>(s: State<X>, cap: nat, k: nat)
    requires Inv(s) && k < |Polled(s, cap).sent|
    ensures Passed(Polled(s, cap), k)
  {
    if k < |s.sent| { assert Passed(s, k); }
  }

  lemma PollCursor<X>(s: State<X>, cap: nat)
    requires Cursor(s.polls, s.cursor, |s.all|)
    ensures var s' := Polled(s, cap); s'.all == s.all && Cursor(s'.polls, s'.cursor, |s.all|)
  {
    var s' := Polled(s, cap);
    if s' != s { assert Left(s'.polls[|s.polls|], s'.cursor, |s.all|); }
  }

  lemma PollKeeps<X>(s: State<X>, cap: nat)
    requires Inv(s)
    ensures Inv(Polled(s, cap))
  {
    var s' := Polled(s, cap);
    SentGrows(s, cap);
    PollCursor(s, cap);
    forall k | 0 <= k < |s'.sent|
      ensures Passed(s', k)
    {
      PollPasses(s, cap, k);
    }
    forall i: nat | i < |s.all| && s.all[i].ts <= s'.cursor && i !in s'.sent
      ensures Lost(s'.polls, s.all, i)
    {
      PollLoses(s, cap, i);
    }
  }

  /** The clock runs forwards, and does not stand at zero. */
  predicate Clocked<X>(run: seq<Action<X>>) {
    && (forall i | 0 <= i < |run| && run[i].Record? :: run[i].e.ts > 0)
    && (forall i, j | 0 <= i < j < |run| && run[i].Record? && run[j].Record? :: run[i].e.ts <= run[j].e.ts)
  }

  ghost predicate Bounded<X>(s: State<X>, ts: nat) {
    s.cursor <= ts && forall i | 0 <= i < |s.all| :: s.all[i].ts <= ts
  }

  lemma StepBounded<X>(s: State<X>, a: Action<X>, cap: nat, ts: nat)
    requires Bounded(s, ts) && (a.Record? ==> a.e.ts <= ts)
    ensures Bounded(Apply(s, a, cap), ts)
  {
  }

  lemma {:induction false} RunBounded<X>(run: seq<Action<X>>, n: nat, cap: nat, ts: nat)
    requires n <= |run| && forall i | 0 <= i < n && run[i].Record? :: run[i].e.ts <= ts
    ensures Bounded(After(run, n, cap), ts)
  {
    if n > 0 {
      RunBounded(run, n - 1, cap, ts);
      StepBounded(After(run, n - 1, cap), run[n - 1], cap, ts);
    }
  }

  lemma StepKeeps<X>(s: State<X>, a: Action<X>, cap: nat)
    requires Inv(s) && (a.Record? ==> a.e.ts > 0 && Bounded(s, a.e.ts))
    ensures Inv(Apply(s, a, cap))
  {
    match a
    case Record(e) => RecordKeeps(s, e);
    case Ask => PollKeeps(s, cap);
  }

  lemma RecordFits<X>(run: seq<Action<X>>, n: nat, cap: nat)
    requires Clocked(run) && 0 < n <= |run|
    ensures run[n - 1].Record? ==> run[n - 1].e.ts > 0 && Bounded(After(run, n - 1, cap), run[n - 1].e.ts)
  {
    if run[n - 1].Record? { RunBounded(run, n - 1, cap, run[n - 1].e.ts); }
  }

  lemma {:induction false} RunKeeps<X>(run: seq<Action<X>>, n: nat, cap: nat)
    requires Clocked(run) && n <= |run|
    ensures Inv(After(run, n, cap))
  {
    if n > 0 {
      RunKeeps(run, n - 1, cap);
      RecordFits(run, n, cap);
      StepKeeps(After(run, n - 1, cap), run[n - 1], cap);
    }
  }

  /** No lost event has been returned, and the cursor never moved back. */
  ghost predicate Final<X>(s: State<X>) {
    && (forall k | 0 <= k < |s.polls| :: s.polls[k].after <= s.cursor)
    && (forall i: nat | i < |s.all| && Lost(s.polls, s.all, i) :: i !in s.sent)
  }

  lemma RecordFinal<X>(s: State<X>, e: Event<X>)
    requires Inv(s) && Final(s)
    ensures Final(s.(all := s.all + [e]))
  {
    var all' := s.all + [e];
    forall i: nat | i < |all'| && Lost(s.polls, all', i)
      ensures i !in s.sent
    {
      if i < |s.all| {
        var k :| 0 <= k < |s.polls| && (Missed(s.polls[k], all', i) || Tied(s.polls[k], all', i));
        assert Missed(s.polls[k], s.all, i) || Tied(s.polls[k], s.all, i);
      }
    }
  }

  lemma PollFinal<X>(s: State<X>, cap: nat, i: nat)
    requires Inv(s) && Final(s) && i < |s.all| && Lost(Polled(s, cap).polls, s.all, i)
    ensures i !in Polled(s, cap).sent
  {
    var s' := Polled(s, cap);
    var j := FirstNewer(s.all, Evicted(|s.all|, cap), s.cursor);
    var m := Min(j + BATCH, |s.all|);
    var k :| 0 <= k < |s'.polls| && (Missed(s'.polls[k], s.all, i) || Tied(s'.polls[k], s.all, i));
    if k < |s.polls| {
      assert Missed(s.polls[k], s.all, i) || Tied(s.polls[k], s.all, i);
      assert s.all[i].ts <= s.polls[k].after <= s.cursor;
    } else {
      assert s.all[i].ts > s.cursor && !(j <= i < m) by { assert j < m ==> s.all[j].ts <= s.all[m - 1].ts; }
    }
    forall n | 0 <= n < |s'.sent|
      ensures s'.sent[n] != i
    {
      if n < |s.sent| { assert Passed(s, n); }
    }
  }

  lemma StepFinal<X>(s: State<X>, a: Action<X>, cap: nat)
    requires Inv(s) && Final(s)
    ensures Final(Apply(s, a, cap))
  {
    match a
    case Record(e) => RecordFinal(s, e);
    case Ask =>
      var s' := Polled(s, cap);
      forall i: nat | i < |s.all| && Lost(s'.polls, s.all, i)
        ensures i !in s'.sent
      {
        PollFinal(s, cap, i);
      }
  }

  lemma {:induction false} RunFinal<X>(run: seq<Action<X>>, n: nat, cap: nat)
    requires Clocked(run) && n <= |run|
    ensures Final(After(run, n, cap))
  {
    if n > 0 {
      RunFinal(run, n - 1, cap);
      RunKeeps(run, n - 1, cap);
      StepFinal(After(run, n - 1, cap), run[n - 1], cap);
    }
  }

  /** All batches of a stream together are a subsequence of the recorded events - in order, nothing
      twice. Of the events the cursor has passed, those never sent are exactly the ones evicted
      before the poll that would have returned them, and the ones that share their millisecond with
      the last event of an earlier batch. */
  lemma StreamIsFaithful<X>(run: seq<Action<X>>, cap: nat)
    requires Clocked(run)
    ensures var s := After(run, |run|, cap);
      && Increasing(s.sent) && (forall k | 0 <= k < |s.sent| :: s.sent[k] < |s.all|)
      && forall i: nat | i < |s.all| && s.all[i].ts <= s.cursor :: i !in s.sent <==> Lost(s.polls, s.all, i)
  {
    RunKeeps(run, |run|, cap);
    RunFinal(run, |run|, cap);
  }

  function TieRun<X>(a: X, b: X, c: X): seq<Action<X>> {
    [Record(Event(5, a)), Ask, Record(Event(5, b)), Ask, Record(Event(6, c)), Ask]
  }

  lemma TieRunOne<X>(a: X, b: X, c: X, cap: nat)
    requires cap == 0 || cap >= 3
    ensures After(TieRun(a, b, c), 2, cap) == State([Event(5, a)], 5, [0], [Poll(0, 0, 5, 1)])
  {
    var run := TieRun(a, b, c);
    assert After(run, 0, cap) == State([], 0, [], []);
    assert After(run, 1, cap) == State([Event(5, a)], 0, [], []);
    PollOne([Event(5, a)], cap, 0, 0, [], []);
  }

  lemma NextStep<X>(run: seq<Action<X>>, n: nat, cap: nat, s: State<X>, a: Action<X>)
    requires n < |run| && After(run, n, cap) == s && run[n] == a
    ensures After(run, n + 1, cap) == Apply(s, a, cap)
  {
  }

  lemma TieRunTied<X>(a: X, b: X, c: X, cap: nat)
    requires cap == 0 || cap >= 3
    ensures After(TieRun(a, b, c), 3, cap) == State([Event(5, a), Event(5, b)], 5, [0], [Poll(0, 0, 5, 1)])
  {
    TieRunOne(a, b, c, cap);
    NextStep(TieRun(a, b, c), 2, cap, State([Event(5, a)], 5, [0], [Poll(0, 0, 5, 1)]), Record(Event(5, b)));
    assert [Event(5, a)] + [Event(5, b)] == [Event(5, a), Event(5, b)];
  }

  lemma TieRunTwo<X>(a: X, b: X, c: X, cap: nat)
    requires cap == 0 || cap >= 3
    ensures After(TieRun(a, b, c), 4, cap) == State([Event(5, a), Event(5, b)], 5, [0], [Poll(0, 0, 5, 1)])
  {
    var s := State([Event(5, a), Event(5, b)], 5, [0], [Poll(0, 0, 5, 1)]);
    TieRunTied(a, b, c, cap);
    NextStep(TieRun(a, b, c), 3, cap, s, Ask);
    PollNone(s.all, cap, 5, [0], s.polls);
  }

  lemma TieRunThree<X>(a: X, b: X, c: X, cap: nat)
    requires cap == 0 || cap >= 3
    ensures After(TieRun(a, b, c), 5, cap)
         == State([Event(5, a), Event(5, b), Event(6, c)], 5, [0], [Poll(0, 0, 5, 1)])
  {
    var (run, two) := (TieRun(a, b, c), [Event(5, a), Event(5, b)]);
    TieRunTwo(a, b, c, cap);
    NextStep(run, 4, cap, State(two, 5, [0], [Poll(0, 0, 5, 1)]), Record(Event(6, c)));
    assert two + [Event(6, c)] == [Event(5, a), Event(5, b), Event(6, c)];
  }

  lemma TieRunEnd<X>(a: X, b: X, c: X, cap: nat)
    requires cap == 0 || cap >= 3
    ensures After(TieRun(a, b, c), 6, cap)
         == State([Event(5, a), Event(5, b), Event(6, c)], 6, [0] + [2], [Poll(0, 0, 5, 1)] + [Poll(0, 5, 6, 3)])
  {
    var all := [Event(5, a), Event(5, b), Event(6, c)];
    TieRunThree(a, b, c, cap);
    NextStep(TieRun(a, b, c), 5, cap, State(all, 5, [0], [Poll(0, 0, 5, 1)]), Ask);
    PollOne(all, cap, 5, 2, [0], [Poll(0, 0, 5, 1)]);
  }

  /** A tie is never made up for: an event that bears the cursor's own millisecond and was not in
      the batch that moved the cursor there is skipped for good. */
  lemma TiesAreSkipped<X>(a: X, b: X, c: X, cap: nat)
    requires cap == 0 || cap >= 3
    ensures var s := After(TieRun(a, b, c), 6, cap);
      Clocked(TieRun(a, b, c)) && s.sent == [0, 2] && s.cursor == 6 && Kept(s.all, cap) == s.all
  {
    TieRunEnd(a, b, c, cap);
    assert [0] + [2] == [0, 2];
  }

  lemma PollNone<X>(all: seq<Event<X>>, cap: nat, cursor: nat, sent: seq<nat>, polls: seq<Poll>)
    requires forall k | 0 <= k < |all| :: all[k].ts <= cursor
    ensures Polled(State(all, cursor, sent, polls), cap) == State(all, cursor, sent, polls)
  {
    assert FirstNewer(all, Evicted(|all|, cap), cursor) == |all|;
  }

  /** A poll that finds only the latest event new. */
  lemma PollOne<X>(all: seq<Event<X>>, cap: nat, cursor: nat, j: nat, sent: seq<nat>, polls: seq<Poll>)
    requires |all| == j + 1 && (cap == 0 || cap >= |all|)
    requires all[j].ts > cursor && forall k | 0 <= k < j :: all[k].ts <= cursor
    ensures Polled(State(all, cursor, sent, polls), cap)
         == State(all, all[j].ts, sent + [j], polls + [Poll(0, cursor, all[j].ts, j + 1)])
  {
    assert FirstNewer(all, 0, cursor) == j;
    assert Range(j, j + 1) == [j];
  }

  /** A poll returns one stretch of the record, adds its indices to those sent, and moves the cursor
      to the last of them. */
  lemma PollSlice<X>(s: State<X>, cap: nat) returns (j: nat, m: nat)
    requires Ordered(s.all)
    ensures j <= m <= |s.all| && Newer(Kept(s.all, cap), s.cursor, BATCH) == s.all[j..m]
    ensures Polled(s, cap).sent == s.sent + Range(j, m)
    ensures Polled(s, cap).cursor == if m == j then s.cursor else s.all[m - 1].ts
  {
    j := FirstNewer(s.all, Evicted(|s.all|, cap), s.cursor);
    m := Min(j + BATCH, |s.all|);
    NewerIsSlice(s.all, Evicted(|s.all|, cap), j, s.cursor, BATCH);
    if m == j { assert s.sent + Range(j, m) == s.sent; }
  }

  /** How many events of the log are newer than the cursor. */
  function NewCount<X>(q: seq<Event<X>>, ts: nat): nat {
    if q == [] then 0 else NewCount(q[..|q| - 1], ts) + (if q[|q| - 1].ts > ts then 1 else 0)
  }

  lemma {:induction false} NewCountFrom<X>(all: seq<Event<X>>, from: nat, j: nat, n: nat, ts: nat)
    requires from <= j <= |all| && from <= n <= |all|
    requires (forall k | from <= k < j :: all[k].ts <= ts) && (forall k | j <= k < |all| :: all[k].ts > ts)
    ensures NewCount(all[from..n], ts) == if n <= j then 0 else n - j
  {
    if n > from {
      assert all[from..n][..n - from - 1] == all[from..n - 1];
      NewCountFrom(all, from, j, n - 1, ts);
    }
  }

  lemma Ascending<X>(all: seq<Event<X>>, j: nat)
    requires Ordered(all) && j < |all|
    ensures forall k | j <= k < |all| :: all[j].ts <= all[k].ts
    ensures forall k | 0 <= k <= j :: all[k].ts <= all[j].ts
  {
  }

  lemma WaitingCount<X>(all: seq<Event<X>>, from: nat, ts: nat)
    requires Ordered(all) && from <= |all|
    ensures NewCount(all[from..], ts) == |all| - FirstNewer(all, from, ts)
  {
    var j := FirstNewer(all, from, ts);
    if j < |all| { Ascending(all, j); }
    NewCountFrom(all, from, j, |all|, ts);
    assert all[from..|all|] == all[from..];
  }

  lemma NoneWaiting<X>(all: seq<Event<X>>, from: nat)
    requires Ordered(all) && from < |all|
    ensures NewCount(all[from..], all[|all| - 1].ts) == 0
  {
    Ascending(all, |all| - 1);
    WaitingCount(all, from, all[|all| - 1].ts);
  }

  /** A poll makes all the progress it can: it sends the oldest of the newer events that the log still holds,
      all of them or 200 if there are more; and if there were no more, nothing newer is left. */
  lemma PollSends<X>(s: State<X>, cap: nat)
    requires Ordered(s.all)
    ensures var s' := Polled(s, cap);
            var waiting := NewCount(Kept(s.all, cap), s.cursor);
      && s'.all == s.all && s.sent <= s'.sent && |s'.sent| == |s.sent| + Min(200, waiting)
      && (waiting <= 200 ==> NewCount(Kept(s.all, cap), s'.cursor) == 0)
  {
    var from := Evicted(|s.all|, cap);
    WaitingCount(s.all, from, s.cursor);
    if FirstNewer(s.all, from, s.cursor) < |s.all| { NoneWaiting(s.all, from); }
  }

  // ---- The running log ----

  class EventLog<X> {
    const cap: nat
    var inner: seq<Event<X>>
    ghost var all: seq<Event<X>>

    ghost predicate Valid()
      reads this
    {
      inner == Kept(all, cap)
    }

    constructor (cap: nat)
      ensures Valid() && this.cap == cap && all == []
    {
      this.cap := cap;
      inner, all := [], [];
    }

    /** Append, dropping the oldest event of a full log. */
    method Add(e: Event<X>)
      requires Valid()
      modifies this
      ensures Valid() && all == old(all) + [e]
    {
      if |inner| == cap && |inner| > 0 { inner := inner[1..]; }
      inner := inner + [e];
      all := all + [e];
    }

    method Recent(n: nat) returns (r: seq<Event<X>>)
      requires Valid()
      ensures r == Reversed(inner[|inner| - Min(n, |inner|)..])
    {
      r := [];
      var i := |inner|;
      ghost var stop := |inner| - Min(n, |inner|);
      assert inner[stop..i] == inner[stop..];
      while i > 0 && |r| < n
        invariant stop <= i <= |inner| && |r| == |inner| - i
        invariant r + Reversed(inner[stop..i]) == Reversed(inner[stop..])
      {
        BackOne(r, inner, stop, i);
        i := i - 1;
        r := r + [inner[i]];
      }
    }

    method Since(ts: nat, max: nat) returns (r: seq<Event<X>>)
      requires Valid()
      ensures r == Newer(inner, ts, max)
    {
      r := [];
      var i := 0;
      while i < |inner| && |r| < max
        invariant i <= |inner| && |r| <= max
        invariant r + Newer(inner[i..], ts, max - |r|) == Newer(inner, ts, max)
      {
        NewerStep(r, inner, i, ts, max - |r|);
        if inner[i].ts > ts { r := r + [inner[i]]; }
        i := i + 1;
      }
    }
  }

  /** One dashboard connection. */
  class Stream<X> {
    const log: EventLog<X>
    var lastEventTs: nat

    constructor (log: EventLog<X>)
      ensures this.log == log && lastEventTs == 0
    {
      this.log := log;
      lastEventTs := 0;
    }

    /** One turn of the loop: it returns the events j..m of the record and leaves the cursor where the
        poll step of a stream over the same record does. */
    method Tick(ghost s: State<X>) returns (evs: seq<Event<X>>, ghost j: nat, ghost m: nat)
      requires log.Valid() && Ordered(log.all) && s.all == log.all && s.cursor == lastEventTs
      modifies this
      ensures j <= m <= |s.all| && evs == s.all[j..m]
      ensures Polled(s, log.cap).sent == s.sent + Range(j, m)
      ensures lastEventTs == Polled(s, log.cap).cursor
    {
      evs := log.Since(lastEventTs, 200);
      j, m := PollSlice(s, log.cap);
      if |evs| > 0 { lastEventTs := evs[|evs| - 1].ts; }
    }
  }
}
