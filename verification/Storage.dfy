/** The persistent event store: many submitters, one unbounded channel, one batching writer.
    Every shared access that anything else depends on is a step of its own, so any interleaving of
    submitters and writer is a run of this machine. */
module Storage {
  import opened Words

  const FLUSH_BATCH: nat := 512
  const MAX_QUEUE: nat := 16_384

  /** Where one call of `submit` stands. `Loaded` has read `queued`, `Passed` has read `drained`
      and may go on, `Counted` has bumped `queued` and still owes the send. */
  datatype Submitter<E> = Idle | Loaded(seen: nat, ev: E) | Passed(ev: E) | Counted(ev: E)

  /** Where the writer stands; `last` marks the flush that follows the close of the channel. */
  datatype Writer = Select | Flushing(last: bool) | Reporting(n: nat, last: bool) | Finished | Failed

  /** Shared state, with `committed` the events of all committed transactions and `rows` the table; then
      the history it is judged against: which of the committed the database `took`, events the channel
      took (`accepted`), batches committed, events lost when a flush failed, and counts of finished
      submits and of sends that found the receiver gone. */
  datatype State<E> = State(
    queued: nat, drained: nat, written: nat, dropped: nat,
    channel: seq<E>, buf: seq<E>, committed: seq<E>, rows: seq<E>,
    subs: seq<Submitter<E>>, writer: Writer, closed: bool,
    took: seq<bool>, accepted: seq<E>, batches: seq<seq<E>>, lost: seq<E>, finished: nat, failedSends: nat)

  /** `Commit` says of each event in the batch whether the database takes its row; the source does not
      ask. */
  datatype Action<E> =
    | LoadQueued(i: nat, ev: E) | LoadDrained(i: nat) | FetchAdd(i: nat) | Send(i: nat)
    | Close | Recv | Tick | RecvNone | Commit(took: seq<bool>) | CommitFails | Report

  function Init<E>(n: nat): State<E> {
    State(0, 0, 0, 0, [], [], [], [], seq(n, i => Idle), Select, false, [], [], [], [], 0, 0)
  }

  predicate Enabled<E>(s: State<E>, a: Action<E>) {
    match a
    case LoadQueued(i, _) => i < |s.subs| && s.subs[i].Idle? && !s.closed
    case LoadDrained(i) => i < |s.subs| && s.subs[i].Loaded?
    case FetchAdd(i) => i < |s.subs| && s.subs[i].Passed?
    case Send(i) => i < |s.subs| && s.subs[i].Counted?
    case Close => !s.closed && forall i | 0 <= i < |s.subs| :: s.subs[i].Idle?
    case Recv => s.writer.Select? && s.channel != []
    case Tick => s.writer.Select?
    case RecvNone => s.writer.Select? && s.closed && s.channel == []
    case Commit(took) => s.writer.Flushing? && |took| == |s.buf|
    case CommitFails => s.writer.Flushing?
    case Report => s.writer.Reporting?
  }

  /** The events whose rows the database takes. */
  function Taken<E>(evs: seq<E>, took: seq<bool>): seq<E>
    requires |took| == |evs|
  {
    if evs == [] then []
    else
      var n := |evs| - 1;
      Taken(evs[..n], took[..n]) + (if took[n] then [evs[n]] else [])
  }

  predicate Refuses<E>(s: State<E>, i: nat)
    requires i < |s.subs| && s.subs[i].Loaded?
  {
    SatSub(s.subs[i].seen, s.drained) > MAX_QUEUE
  }

  function Apply<E>(s: State<E>, a: Action<E>): State<E>
    requires Enabled(s, a)
  {
    match a
    case LoadQueued(i, ev) => s.(subs := s.subs[i := Loaded(s.queued, ev)])
    case LoadDrained(i) =>
      if Refuses(s, i) then
        s.(subs := s.subs[i := Idle], dropped := s.dropped + 1, finished := s.finished + 1)
      else
        s.(subs := s.subs[i := Passed(s.subs[i].ev)])
    case FetchAdd(i) => s.(subs := s.subs[i := Counted(s.subs[i].ev)], queued := s.queued + 1)
    case Send(i) =>
      var t := s.(subs := s.subs[i := Idle], finished := s.finished + 1);
      if s.writer.Failed? || s.writer.Finished? then
        t.(dropped := s.dropped + 1, failedSends := s.failedSends + 1)
      else
        t.(channel := s.channel + [s.subs[i].ev], accepted := s.accepted + [s.subs[i].ev])
    case Close => s.(closed := true)
    case Recv =>
      var buf := s.buf + [s.channel[0]];
      s.(channel := s.channel[1..], buf := buf,
         writer := if |buf| >= FLUSH_BATCH then Flushing(false) else Select)
    case Tick => if s.buf != [] then s.(writer := Flushing(false)) else s
    case RecvNone => s.(writer := if s.buf != [] then Flushing(true) else Finished)
    case Commit(took) =>
      s.(committed := s.committed + s.buf, rows := s.rows + Taken(s.buf, took), took := s.took + took,
         batches := s.batches + [s.buf], buf := [],
         writer := Reporting(|s.buf|, s.writer.last))
    case CommitFails => s.(lost := s.buf + s.channel, buf := [], channel := [], writer := Failed)
    case Report =>
      s.(written := s.written + s.writer.n, drained := s.drained + s.writer.n,
         writer := if s.writer.last then Finished else Select)
  }

  /** `run` can be taken step by step from `s`. */
  predicate Possible<E>(s: State<E>, run: seq<Action<E>>)
    decreases |run|
  {
    run == [] || (Enabled(s, run[0]) && Possible(Apply(s, run[0]), run[1..]))
  }

  function After<E>(s: State<E>, run: seq<Action<E>>): State<E>
    requires Possible(s, run)
    decreases |run|
  {
    if run == [] then s else After(Apply(s, run[0]), run[1..])
  }

  // ---- Counting submitters ----

  /** Does this submitter still threaten to push the queue past depth MAX_QUEUE above `d`? */
  predicate Presses<E>(x: Submitter<E>, d: nat) {
    x.Passed? || (x.Loaded? && x.seen <= d + MAX_QUEUE)
  }

  function Pressure<E>(subs: seq<Submitter<E>>, d: nat): nat {
    if subs == [] then 0 else (if Presses(subs[0], d) then 1 else 0) + Pressure(subs[1..], d)
  }

  function Owed<E>(subs: seq<Submitter<E>>): nat {
    if subs == [] then 0 else (if subs[0].Counted? then 1 else 0) + Owed(subs[1..])
  }

  lemma {:induction false} PressureUpdate<E>(subs: seq<Submitter<E>>, i: nat, x: Submitter<E>, d: nat)
    requires i < |subs|
    ensures Pressure(subs[i := x], d)
         == Pressure(subs, d) - (if Presses(subs[i], d) then 1 else 0) + (if Presses(x, d) then 1 else 0)
  {
    if i == 0 {
      assert subs[i := x][1..] == subs[1..];
    } else {
      assert subs[i := x][1..] == subs[1..][i - 1 := x];
      PressureUpdate(subs[1..], i - 1, x, d);
    }
  }

  lemma {:induction false} OwedUpdate<E>(subs: seq<Submitter<E>>, i: nat, x: Submitter<E>)
    requires i < |subs|
    ensures Owed(subs[i := x])
         == Owed(subs) - (if subs[i].Counted? then 1 else 0) + (if x.Counted? then 1 else 0)
  {
    if i == 0 {
      assert subs[i := x][1..] == subs[1..];
    } else {
      assert subs[i := x][1..] == subs[1..][i - 1 := x];
      OwedUpdate(subs[1..], i - 1, x);
    }
  }

  lemma {:induction false} PressureBounded<E>(subs: seq<Submitter<E>>, d: nat)
    ensures Pressure(subs, d) <= |subs|
  {
    if subs != [] { PressureBounded(subs[1..], d); }
  }

  // ---- What every step keeps ----

  ghost function Flat<E>(bs: seq<seq<E>>): seq<E> {
    if bs == [] then [] else Flat(bs[..|bs| - 1]) + bs[|bs| - 1]
  }

  /** Every accepted event is committed, buffered, in the channel or lost, in sending order. */
  ghost predicate Fifo<E>(s: State<E>) {
    && s.accepted == s.committed + s.buf + s.channel + s.lost
    && s.committed == Flat(s.batches)
  }

  /** The table holds what the database took of the committed events, in their order. */
  ghost predicate Tabled<E>(s: State<E>) {
    |s.took| == |s.committed| && s.rows == Taken(s.committed, s.took)
  }

  lemma {:induction false} TakenConcat<E>(a: seq<E>, x: seq<bool>, b: seq<E>, y: seq<bool>)
    requires |a| == |x| && |b| == |y|
    ensures Taken(a + b, x + y) == Taken(a, x) + Taken(b, y)
  {
    if b == [] {
      assert a + b == a && x + y == x;
    } else {
      var n := |b| - 1;
      TakenConcat(a, x, b[..n], y[..n]);
      assert (a + b)[..|a + b| - 1] == a + b[..n] && (x + y)[..|a + b| - 1] == x + y[..n];
    }
  }

  lemma TabledStep<E>(s: State<E>, a: Action<E>)
    requires Tabled(s) && Enabled(s, a)
    ensures Tabled(Apply(s, a))
  {
    if a.Commit? { TakenConcat(s.committed, s.took, s.buf, a.took); }
  }

  /** What the writer and the close of the channel guarantee about the buffers. */
  ghost predicate Shape<E>(s: State<E>) {
    && (forall b | b in s.batches :: 0 < |b| <= FLUSH_BATCH)
    && |s.buf| <= FLUSH_BATCH
    && (s.writer.Select? ==> |s.buf| < FLUSH_BATCH)
    && (s.writer.Flushing? ==> s.buf != [])
    && (s.writer.Reporting? || s.writer.Finished? ==> s.buf == [])
    && (if s.writer.Failed? then s.buf == [] && s.channel == [] else s.lost == [] && s.failedSends == 0)
    && (s.writer.Reporting? ==> s.writer.n <= FLUSH_BATCH)
    && (s.writer.Flushing? && s.writer.last ==> s.closed && s.channel == [])
    && (s.writer.Reporting? && s.writer.last ==> s.closed && s.channel == [])
    && (s.writer.Finished? ==> s.closed && s.channel == [])
    && (s.closed ==> forall i | 0 <= i < |s.subs| :: s.subs[i].Idle?)
  }

  /** The counters agree with the history. */
  ghost predicate Counts<E>(s: State<E>) {
    && s.queued == |s.accepted| + s.failedSends + Owed(s.subs)
    && s.written == s.drained
    && |s.committed| == s.drained + (if s.writer.Reporting? then s.writer.n else 0)
    && s.finished == |s.accepted| + s.dropped
    && s.drained <= s.queued
    && forall i | 0 <= i < |s.subs| && s.subs[i].Loaded? :: s.subs[i].seen <= s.queued
  }

  /** The depth bound, strengthened to every drained value still to come. */
  ghost predicate DepthHeld<E>(s: State<E>) {
    forall d: nat | s.drained <= d <= s.queued ::
      s.queued - d <= MAX_QUEUE || s.queued - d + Pressure(s.subs, d) <= MAX_QUEUE + |s.subs|
  }

  ghost predicate Inv<E>(s: State<E>) {
    Fifo(s) && Tabled(s) && Shape(s) && Counts(s) && DepthHeld(s)
  }

  lemma ShapeStep<E>(s: State<E>, a: Action<E>)
    requires Shape(s) && Enabled(s, a)
    ensures Shape(Apply(s, a))
  {
  }

  /** The four ways an event moves leave the overall order alone. */
  lemma Moves<E>(c: seq<E>, b: seq<E>, ch: seq<E>, e: E)
    ensures c + b + ch + [] + [e] == c + b + (ch + [e]) + []
    ensures ch != [] ==> c + b + ch + [] == c + (b + [ch[0]]) + ch[1..] + []
    ensures c + b + ch + [] == (c + b) + [] + ch + []
    ensures c + b + ch + [] == c + [] + [] + (b + ch)
  {
  }

  lemma FifoSend<E>(s: State<E>, i: nat)
    requires Fifo(s) && Enabled(s, Send(i)) && (!s.writer.Failed? ==> s.lost == [])
    ensures Fifo(Apply(s, Send(i)))
  {
    Moves(s.committed, s.buf, s.channel, s.subs[i].ev);
  }

  lemma FifoRecv<E>(s: State<E>)
    requires Fifo(s) && Enabled(s, Recv) && s.lost == []
    ensures Fifo(Apply(s, Recv))
  {
    Moves(s.committed, s.buf, s.channel, s.channel[0]);
  }

  lemma FifoFlush<E>(s: State<E>, a: Action<E>)
    requires Fifo(s) && Enabled(s, a) && (a.Commit? || a.CommitFails?) && s.lost == [] && s.buf != []
    ensures Fifo(Apply(s, a))
  {
    Moves(s.committed, s.buf, s.channel, s.buf[0]);
    assert (s.batches + [s.buf])[..|s.batches|] == s.batches;
  }

  lemma FifoStep<E>(s: State<E>, a: Action<E>)
    requires Fifo(s) && Shape(s) && Enabled(s, a)
    ensures Fifo(Apply(s, a))
  {
    if a.Send? {
      FifoSend(s, a.i);
    } else if a.Recv? {
      FifoRecv(s);
    } else if a.Commit? || a.CommitFails? {
      FifoFlush(s, a);
    }
  }

  predicate Submits<E>(a: Action<E>) {
    a.LoadQueued? || a.LoadDrained? || a.FetchAdd? || a.Send?
  }

  lemma CountsSubmit<E>(s: State<E>, a: Action<E>)
    requires Counts(s) && Enabled(s, a) && Submits(a)
    ensures Counts(Apply(s, a))
  {
    OwedUpdate(s.subs, a.i, Apply(s, a).subs[a.i]);
    assert Apply(s, a).subs == s.subs[a.i := Apply(s, a).subs[a.i]];
  }

  lemma CountsWriter<E>(s: State<E>, a: Action<E>)
    requires Counts(s) && Enabled(s, a) && !Submits(a)
    requires |s.accepted| == |s.committed| + |s.buf| + |s.channel| + |s.lost|
    ensures Counts(Apply(s, a))
  {
  }

  lemma CountsStep<E>(s: State<E>, a: Action<E>)
    requires Fifo(s) && Counts(s) && Enabled(s, a)
    ensures Counts(Apply(s, a))
  {
    if Submits(a) { CountsSubmit(s, a); } else { CountsWriter(s, a); }
  }

  lemma DepthStep<E>(s: State<E>, a: Action<E>)
    requires Counts(s) && DepthHeld(s) && Enabled(s, a)
    ensures DepthHeld(Apply(s, a))
  {
    var t := Apply(s, a);
    forall d: nat | t.drained <= d <= t.queued
      ensures t.queued - d <= MAX_QUEUE || t.queued - d + Pressure(t.subs, d) <= MAX_QUEUE + |t.subs|
    {
      PressureBounded(t.subs, d);
      PressureBounded(s.subs, d);
      match a
      case LoadQueued(i, ev) => PressureUpdate(s.subs, i, Loaded(s.queued, ev), d);
      case LoadDrained(i) =>
        PressureUpdate(s.subs, i, Idle, d);
        PressureUpdate(s.subs, i, Passed(s.subs[i].ev), d);
      case FetchAdd(i) => PressureUpdate(s.subs, i, Counted(s.subs[i].ev), d);
      case Send(i) => PressureUpdate(s.subs, i, Idle, d);
      case _ =>
    }
  }

  lemma InvInit<E>(n: nat)
    ensures Inv<E>(Init<E>(n))
  {
    var s := Init<E>(n);
    NoneOwed(s.subs);
  }

  lemma {:induction false} NoneOwed<E>(subs: seq<Submitter<E>>)
    requires forall i | 0 <= i < |subs| :: subs[i].Idle?
    ensures Owed(subs) == 0
  {
    if subs != [] { NoneOwed(subs[1..]); }
  }

  lemma SubsStep<E>(s: State<E>, a: Action<E>)
    requires Enabled(s, a)
    ensures |Apply(s, a).subs| == |s.subs|
  {
  }

  lemma InvStep<E>(s: State<E>, a: Action<E>)
    requires Inv(s) && Enabled(s, a)
    ensures Inv(Apply(s, a)) && |Apply(s, a).subs| == |s.subs|
  {
    SubsStep(s, a);
    ShapeStep(s, a);
    FifoStep(s, a);
    TabledStep(s, a);
    CountsStep(s, a);
    DepthStep(s, a);
  }

  lemma {:induction false} InvRun<E>(s: State<E>, run: seq<Action<E>>)
    requires Inv(s) && Possible(s, run)
    ensures Inv(After(s, run)) && |After(s, run).subs| == |s.subs|
    decreases |run|
  {
    if run != [] {
      InvStep(s, run[0]);
      InvRun(Apply(s, run[0]), run[1..]);
    }
  }

  /** Some interleaving of n submitters and the writer leads here from an empty store. */
  ghost predicate Reachable<E(!new)>(s: State<E>, n: nat) {
    exists run :: Possible(Init(n), run) && After(Init(n), run) == s
  }

  lemma ReachableInv<E(!new)>(s: State<E>, n: nat)
    requires Reachable(s, n)
    ensures Inv(s) && |s.subs| == n
  {
    var run :| Possible(Init(n), run) && After(Init(n), run) == s;
    InvInit<E>(n);
    InvRun(Init(n), run);
  }

  // ---- Safety over whole runs ----

  /** Check-then-act overshoots by at most one event per submitter, whatever the interleaving. */
  lemma DepthBounded<E(!new)>(s: State<E>, n: nat)
    requires Reachable(s, n)
    ensures s.drained <= s.queued <= s.drained + MAX_QUEUE + n
  {
    ReachableInv(s, n);
    PressureBounded(s.subs, s.drained);
    assert s.queued - s.drained <= MAX_QUEUE || s.queued - s.drained + Pressure(s.subs, s.drained) <= MAX_QUEUE + n;
  }

  /** Events reach the database first in, first out; each is in exactly one place; and the
      books balance at every moment of every run. */
  lemma FirstInFirstOut<E(!new)>(s: State<E>, n: nat)
    requires Reachable(s, n)
    ensures s.accepted == Flat(s.batches) + s.buf + s.channel + s.lost && s.committed == Flat(s.batches)
    ensures forall b | b in s.batches :: 0 < |b| <= FLUSH_BATCH
    ensures !s.writer.Failed? ==> s.lost == []
    ensures s.finished == |s.accepted| + s.dropped
  {
    ReachableInv(s, n);
  }

  /** Once the writer has left its loop cleanly, every accepted event is in the database, every
      batch is reported, and `written + dropped` accounts for every submit. */
  lemma CleanCloseCommitsAll<E(!new)>(s: State<E>, n: nat)
    requires Reachable(s, n) && s.writer.Finished?
    ensures s.committed == s.accepted && s.written == |s.accepted| && s.written + s.dropped == s.finished
  {
    ReachableInv(s, n);
    assert s.accepted == s.committed;
  }

  /** After a failed flush the two public counters no longer account for every submit: they fall
      short by exactly the events that were buffered or in the channel. */
  lemma FailureLosesSilently<E(!new)>(s: State<E>, n: nat)
    requires Reachable(s, n) && s.writer.Failed?
    ensures s.written + s.dropped + |s.lost| == s.finished
    ensures s.accepted == s.committed + s.lost && s.written == |s.committed|
  {
    ReachableInv(s, n);
  }

  /** The batch that is committed but not yet reported. */
  function Unreported<E>(s: State<E>): nat {
    if s.writer.Reporting? then s.writer.n else 0
  }

  lemma {:induction false} TakenCounts<E>(evs: seq<E>, took: seq<bool>)
    requires |took| == |evs|
    ensures |Taken(evs, took)| == |evs| - multiset(took)[false]
  {
    if evs != [] {
      TakenCounts(evs[..|evs| - 1], took[..|evs| - 1]);
      assert took == took[..|evs| - 1] + [took[|evs| - 1]];
    }
  }

  /** A row the database turns down inside a committed batch is reported as written all the same: the
      table holds the committed events it took, in order, and `written`, once the batch is reported,
      exceeds it by exactly those it did not. */
  lemma RejectedRowsCount<E(!new)>(s: State<E>, n: nat)
    requires Reachable(s, n)
    ensures |s.took| == |s.committed| && s.rows == Taken(s.committed, s.took)
    ensures s.written + Unreported(s) == |s.rows| + multiset(s.took)[false]
  {
    ReachableInv(s, n);
    TakenCounts(s.committed, s.took);
  }

  /** What the difference of the two counters stands for: events in the buffer and the channel, events
      counted but not yet sent, a batch not yet reported, and, once a flush has failed, everything
      lost or refused by the dead channel. */
  lemma DepthExact<E(!new)>(s: State<E>, n: nat)
    requires Reachable(s, n)
    ensures s.queued - s.drained
         == |s.buf| + |s.channel| + Owed(s.subs) + Unreported(s) + |s.lost| + s.failedSends
    ensures !s.writer.Failed? ==> |s.lost| == s.failedSends == 0
    ensures Unreported(s) <= FLUSH_BATCH
  {
    ReachableInv(s, n);
  }

  lemma {:induction false} OwedByOthers<E>(subs: seq<Submitter<E>>, i: nat)
    requires i < |subs| && !subs[i].Counted?
    ensures Owed(subs) <= |subs| - 1
  {
    if i > 0 { OwedByOthers(subs[1..], i - 1); } else { OwedBounded(subs[1..]); }
  }

  lemma {:induction false} OwedBounded<E>(subs: seq<Submitter<E>>)
    ensures Owed(subs) <= |subs|
  {
    if subs != [] { OwedBounded(subs[1..]); }
  }

  /** An event is refused only at a depth above MAX_QUEUE that is really there at that moment. With a
      live writer that leaves more than MAX_QUEUE events in buffer and channel but for the batch being
      reported and one event for each other submitter. */
  lemma RefusalMeansFull<E(!new)>(s: State<E>, n: nat, i: nat)
    requires Reachable(s, n) && i < |s.subs| && s.subs[i].Loaded? && Refuses(s, i)
    ensures |s.buf| + |s.channel| + Owed(s.subs) + Unreported(s) + |s.lost| + s.failedSends > MAX_QUEUE
    ensures !s.writer.Failed? ==> |s.buf| + |s.channel| > MAX_QUEUE - FLUSH_BATCH - (n - 1)
  {
    ReachableInv(s, n);
    DepthExact(s, n);
    OwedByOthers(s.subs, i);
  }

  /** After a failed flush, when nothing is waiting any more, refusals tell of the dead writer alone. */
  lemma RefusalAfterFailure<E(!new)>(s: State<E>, n: nat, i: nat)
    requires Reachable(s, n) && i < |s.subs| && s.subs[i].Loaded? && Refuses(s, i) && s.writer.Failed?
    ensures s.buf == [] && s.channel == [] && |s.lost| + s.failedSends + Owed(s.subs) > MAX_QUEUE
  {
    ReachableInv(s, n);
    DepthExact(s, n);
  }

  // ---- Progress ----

  lemma {:induction false} Extend<E>(s: State<E>, run: seq<Action<E>>, a: Action<E>)
    requires Possible(s, run) && Enabled(After(s, run), a)
    ensures Possible(s, run + [a]) && After(s, run + [a]) == Apply(After(s, run), a)
    decreases |run|
  {
    if run == [] {
      assert run + [a] == [a];
      assert [a][1..] == [];
    } else {
      assert (run + [a])[1..] == run[1..] + [a];
      Extend(Apply(s, run[0]), run[1..], a);
    }
  }

  lemma Take<E(!new)>(s: State<E>, n: nat, a: Action<E>) returns (t: State<E>)
    requires Reachable(s, n) && Enabled(s, a)
    ensures Reachable(t, n) && t == Apply(s, a)
  {
    var run :| Possible(Init(n), run) && After(Init(n), run) == s;
    Extend(Init(n), run, a);
    t := Apply(s, a);
  }

  /** A batch is flushed the moment it is full, at 512 events, and no earlier but by the tick or the close. */
  lemma FullBatchFlushes<E(!new)>(s: State<E>, n: nat)
    requires Reachable(s, n) && Enabled(s, Recv)
    ensures var t := Apply(s, Recv);
      && t.buf == s.buf + [s.channel[0]] && t.channel == s.channel[1..]
      && (if |t.buf| == 512 then t.writer == Flushing(false) else t.writer.Select? && |t.buf| < 512)
  {
    ReachableInv(s, n);
  }

  /** The writer can flush what it holds and report it. */
  ghost predicate FlushesTo<E>(s: State<E>, took: seq<bool>, t: State<E>) {
    && Enabled(s, Commit(took)) && Enabled(Apply(s, Commit(took)), Report)
    && t == Apply(Apply(s, Commit(took)), Report)
  }

  /** What a flush does, whatever the database says to the rows: the whole batch is committed behind what
      was committed before, and both counters rise by its length. */
  lemma FlushCommits<E(!new)>(s: State<E>, n: nat, took: seq<bool>) returns (t: State<E>)
    requires Reachable(s, n) && s.writer.Flushing? && |took| == |s.buf|
    ensures FlushesTo(s, took, t) && Reachable(t, n)
    ensures t.committed == s.committed + s.buf && t.buf == [] && t.channel == s.channel
    ensures t.written == s.written + |s.buf| && t.drained == s.drained + |s.buf|
    ensures t.writer == if s.writer.last then Finished else Select
    ensures t.accepted == s.accepted && t.dropped == s.dropped && t.queued == s.queued && t.subs == s.subs
    ensures t.closed == s.closed
  {
    t := Take(s, n, Commit(took));
    t := Take(t, n, Report);
  }

  /** The tick flushes whatever is in the buffer, be it one event: while the writer waits, nothing it has
      received stays uncommitted longer than to the next tick and flush. */
  lemma TickCommits<E(!new)>(s: State<E>, n: nat, took: seq<bool>) returns (t: State<E>)
    requires Reachable(s, n) && s.writer.Select? && s.buf != [] && |took| == |s.buf|
    ensures Enabled(s, Tick) && FlushesTo(Apply(s, Tick), took, t) && Reachable(t, n)
    ensures t.committed == s.committed + s.buf && t.buf == [] && t.channel == s.channel && t.writer.Select?
    ensures t.written == s.written + |s.buf| && t.drained == s.drained + |s.buf| && t.accepted == s.accepted
  {
    var u := Take(s, n, Tick);
    t := FlushCommits(u, n, took);
  }

  function AllTaken(k: nat): seq<bool> {
    seq(k, i => true)
  }

  /** A step of the writer that succeeds. */
  predicate Works<E>(a: Action<E>) {
    a.Recv? || a.Tick? || a.Commit? || a.Report?
  }

  /** The writer can go from s to t by itself. */
  ghost predicate Leads<E(!new)>(s: State<E>, t: State<E>) {
    exists run :: Possible(s, run) && After(s, run) == t && forall i | 0 <= i < |run| :: Works(run[i])
  }

  lemma LeadsOn<E(!new)>(s: State<E>, t: State<E>, a: Action<E>)
    requires Leads(s, t) && Enabled(t, a) && Works(a)
    ensures Leads(s, Apply(t, a))
  {
    var run :| Possible(s, run) && After(s, run) == t && forall i | 0 <= i < |run| :: Works(run[i]);
    Extend(s, run, a);
  }

  lemma LeadsToFlush<E(!new)>(s: State<E>, t: State<E>, u: State<E>)
    requires Leads(s, t) && t.writer.Flushing? && FlushesTo(t, AllTaken(|t.buf|), u)
    ensures Leads(s, u)
  {
    LeadsOn(s, t, Commit(AllTaken(|t.buf|)));
    LeadsOn(s, Apply(t, Commit(AllTaken(|t.buf|))), Report);
  }

  /** Receipts with the flushes that fall due empty the channel. */
  lemma {:induction false} Drains<E(!new)>(s: State<E>, n: nat, k: nat) returns (t: State<E>)
    requires Reachable(s, n) && s.writer.Select? && k <= |s.channel|
    ensures Reachable(t, n) && Leads(s, t) && t.writer.Select?
    ensures t.channel == s.channel[k..] && t.accepted == s.accepted && t.queued == s.queued
  {
    if k == 0 {
      t := s;
      assert Possible(s, []) && After(s, []) == s;
    } else {
      var before := Drains(s, n, k - 1);
      t := Take(before, n, Recv);
      LeadsOn(s, before, Recv);
      FullBatchFlushes(before, n);
      if t.writer.Flushing? {
        var u := FlushCommits(t, n, AllTaken(|t.buf|));
        LeadsToFlush(s, t, u);
        t := u;
      }
    }
  }

  lemma NothingWaits<E(!new)>(s: State<E>, n: nat)
    requires Reachable(s, n) && s.writer.Select? && s.channel == [] && s.buf == []
    ensures s.committed == s.accepted && s.written == s.drained == |s.accepted|
  {
    ReachableInv(s, n);
    assert s.accepted == s.committed;
  }

  /** From wherever it waits, a writer whose flushes succeed comes by itself, through receipts, the flushes
      that fall due and one tick, to where every accepted event is committed and reported. */
  lemma WriterCatchesUp<E(!new)>(s: State<E>, n: nat) returns (t: State<E>)
    requires Reachable(s, n) && s.writer.Select?
    ensures Reachable(t, n) && Leads(s, t) && t.writer.Select?
    ensures t.accepted == s.accepted == t.committed && t.written == t.drained == |s.accepted|
    ensures t.channel == t.buf == []
  {
    t := Drains(s, n, |s.channel|);
    if t.buf != [] {
      LeadsOn(s, t, Tick);
      var u := TickCommits(t, n, AllTaken(|t.buf|));
      LeadsToFlush(s, Apply(t, Tick), u);
      t := u;
    }
    NothingWaits(t, n);
  }

  /** One submit that nothing disturbs: up to a depth of 16384 it puts its event at the end of the channel,
      beyond it drops the event. */
  lemma SubmitDelivers<E(!new)>(s: State<E>, n: nat, i: nat, ev: E) returns (t: State<E>)
    requires Reachable(s, n) && Enabled(s, LoadQueued(i, ev)) && !s.writer.Failed?
    ensures Reachable(t, n) && t.subs == s.subs && t.finished == s.finished + 1
    ensures if s.queued - s.drained <= 16_384
            then t.channel == s.channel + [ev] && t.queued == s.queued + 1 && t.dropped == s.dropped
            else t.channel == s.channel && t.queued == s.queued && t.dropped == s.dropped + 1
  {
    ReachableInv(s, n);
    t := Take(s, n, LoadQueued(i, ev));
    t := Take(t, n, LoadDrained(i));
    if s.queued - s.drained <= 16_384 {
      t := Take(t, n, FetchAdd(i));
      t := Take(t, n, Send(i));
    }
    assert t.subs == s.subs;
  }

  // ---- The bound is tight ----

  /** k uninterrupted submits by the first submitter, the writer asleep. */
  lemma {:induction false} Fill<E(!new)>(n: nat, ev: E, k: nat) returns (s: State<E>)
    requires 0 < n && k <= MAX_QUEUE
    ensures Reachable(s, n)
    ensures s.queued == k && s.drained == 0 && s.subs == Init<E>(n).subs && s.writer.Select? && !s.closed
  {
    if k == 0 {
      s := Init(n);
      assert Possible(s, []) && After(s, []) == s;
    } else {
      s := Fill(n, ev, k - 1);
      s := Take(s, n, LoadQueued(0, ev));
      s := Take(s, n, LoadDrained(0));
      s := Take(s, n, FetchAdd(0));
      s := Take(s, n, Send(0));
      assert s.subs == Init<E>(n).subs;
    }
  }

  /** From a queue of exactly MAX_QUEUE events, the first j submitters all pass the check. */
  lemma {:induction false} AllPass<E(!new)>(n: nat, ev: E, j: nat) returns (s: State<E>)
    requires 0 < n && j <= n
    ensures Reachable(s, n)
    ensures s.queued == MAX_QUEUE && s.drained == 0 && !s.closed && |s.subs| == n
    ensures forall i | 0 <= i < n :: s.subs[i] == if i < j then Passed(ev) else Idle
  {
    if j == 0 {
      s := Fill(n, ev, MAX_QUEUE);
    } else {
      s := AllPass(n, ev, j - 1);
      s := Take(s, n, LoadQueued(j - 1, ev));
      s := Take(s, n, LoadDrained(j - 1));
    }
  }

  lemma {:induction false} AllCount<E(!new)>(n: nat, ev: E, j: nat) returns (s: State<E>)
    requires 0 < n && j <= n
    ensures Reachable(s, n) && s.queued == MAX_QUEUE + j && s.drained == 0 && |s.subs| == n
    ensures forall i | j <= i < n :: s.subs[i] == Passed(ev)
  {
    if j == 0 {
      s := AllPass(n, ev, n);
    } else {
      s := AllCount(n, ev, j - 1);
      s := Take(s, n, FetchAdd(j - 1));
    }
  }

  /** Some run does reach depth MAX_QUEUE + n, so `DepthBounded` cannot be improved. */
  lemma BoundIsTight<E(!new)>(n: nat, ev: E)
    requires 0 < n
    ensures exists s: State<E> :: Reachable(s, n) && s.queued - s.drained == MAX_QUEUE + n
  {
    var s := AllCount(n, ev, n);
  }

  /** And a refusal with no more than MAX_QUEUE events in buffer and channel does happen: an event of
      another submitter that is counted and not yet sent makes up the depth. */
  lemma RefusedWithRoom<E(!new)>(n: nat, ev: E)
    requires 2 <= n
    ensures exists s: State<E> :: Reachable(s, n) && |s.subs| > 1 && s.subs[1].Loaded? && Refuses(s, 1)
                                  && |s.buf| + |s.channel| == MAX_QUEUE
  {
    var s := Fill(n, ev, MAX_QUEUE);
    ghost var idle := s.subs;
    NoneOwed(idle);
    s := Take(s, n, LoadQueued(0, ev));
    s := Take(s, n, LoadDrained(0));
    s := Take(s, n, FetchAdd(0));
    s := Take(s, n, LoadQueued(1, ev));
    OwedUpdate(idle, 0, Counted(ev));
    OwedUpdate(idle[0 := Counted(ev)], 1, Loaded(MAX_QUEUE + 1, ev));
    assert s.subs == idle[0 := Counted(ev)][1 := Loaded(MAX_QUEUE + 1, ev)];
    DepthExact(s, n);
  }

  // ---- The running pipeline ----

  /** The shared counters, the channel and the writer task, updated in place one atomic access at
      a time; `Snapshot` is the machine state they amount to. */
  class Pipeline<E> {
    var queued: nat
    var drained: nat
    var written: nat
    var dropped: nat
    var channel: seq<E>
    var buf: seq<E>
    var committed: seq<E>
    var rows: seq<E>
    var subs: seq<Submitter<E>>
    var writer: Writer
    var closed: bool
    ghost var took: seq<bool>
    ghost var accepted: seq<E>
    ghost var batches: seq<seq<E>>
    ghost var lost: seq<E>
    ghost var finished: nat
    ghost var failedSends: nat

    ghost function Snapshot(): State<E>
      reads this
    {
      State(queued, drained, written, dropped, channel, buf, committed, rows, subs, writer, closed,
            took, accepted, batches, lost, finished, failedSends)
    }

    constructor (n: nat)
      ensures Snapshot() == Init(n)
    {
      queued, drained, written, dropped := 0, 0, 0, 0;
      channel, buf, committed, rows := [], [], [], [];
      subs := seq(n, i => Idle);
      writer, closed := Select, false;
      took, accepted, batches, lost, finished, failedSends := [], [], [], [], 0, 0;
    }

    method ReadQueued(i: nat, ev: E)
      requires Enabled(Snapshot(), LoadQueued(i, ev))
      modifies this
      ensures Snapshot() == Apply(old(Snapshot()), LoadQueued(i, ev))
    {
      subs := subs[i := Loaded(queued, ev)];
    }

    method ReadDrained(i: nat)
      requires Enabled(Snapshot(), LoadDrained(i))
      modifies this
      ensures Snapshot() == Apply(old(Snapshot()), LoadDrained(i))
    {
      if SatSub(subs[i].seen, drained) > MAX_QUEUE {
        dropped := dropped + 1;
        finished := finished + 1;
        subs := subs[i := Idle];
      } else {
        subs := subs[i := Passed(subs[i].ev)];
      }
    }

    method BumpQueued(i: nat)
      requires Enabled(Snapshot(), FetchAdd(i))
      modifies this
      ensures Snapshot() == Apply(old(Snapshot()), FetchAdd(i))
    {
      queued := queued + 1;
      subs := subs[i := Counted(subs[i].ev)];
    }

    method SendEvent(i: nat)
      requires Enabled(Snapshot(), Send(i))
      modifies this
      ensures Snapshot() == Apply(old(Snapshot()), Send(i))
    {
      if writer.Failed? || writer.Finished? {
        dropped := dropped + 1;
        failedSends := failedSends + 1;
      } else {
        channel := channel + [subs[i].ev];
        accepted := accepted + [subs[i].ev];
      }
      subs := subs[i := Idle];
      finished := finished + 1;
    }

    method CloseChannel()
      requires Enabled(Snapshot(), Close)
      modifies this
      ensures Snapshot() == Apply(old(Snapshot()), Close)
    {
      closed := true;
    }

    method Receive()
      requires Enabled(Snapshot(), Recv)
      modifies this
      ensures Snapshot() == Apply(old(Snapshot()), Recv)
    {
      buf := buf + [channel[0]];
      channel := channel[1..];
      if |buf| >= FLUSH_BATCH { writer := Flushing(false); }
    }

    method FlushTick()
      requires Enabled(Snapshot(), Tick)
      modifies this
      ensures Snapshot() == Apply(old(Snapshot()), Tick)
    {
      if buf != [] { writer := Flushing(false); }
    }

    method ReceiveEnd()
      requires Enabled(Snapshot(), RecvNone)
      modifies this
      ensures Snapshot() == Apply(old(Snapshot()), RecvNone)
    {
      if buf != [] { writer := Flushing(true); } else { writer := Finished; }
    }

    /** Take the events out of the buffer one by one and insert each; whether the insert succeeds is
        not looked at. */
    method DrainBuffer(answers: seq<bool>) returns (evs: seq<E>, inserted: seq<E>)
      requires |answers| == |buf|
      modifies this`buf
      ensures evs == old(buf) && buf == [] && inserted == Taken(old(buf), answers)
    {
      evs, inserted := [], [];
      while buf != []
        invariant evs + buf == old(buf) && inserted == Taken(evs, answers[..|evs|])
      {
        var (i, ev) := (|evs|, buf[0]);
        assert (evs + [ev])[..i] == evs && answers[..i + 1][..i] == answers[..i];
        if answers[i] { inserted := inserted + [ev]; }
        evs := evs + [ev];
        buf := buf[1..];
      }
      assert evs == evs + buf && answers[..|evs|] == answers;
    }

    method EndTransaction(evs: seq<E>, inserted: seq<E>, answers: seq<bool>)
      requires writer.Flushing?
      modifies this
      ensures var s := old(Snapshot());
        Snapshot() == s.(committed := s.committed + evs, rows := s.rows + inserted, took := s.took + answers,
                         batches := s.batches + [evs], writer := Reporting(|evs|, s.writer.last))
    {
      committed := committed + evs;
      rows := rows + inserted;
      took := took + answers;
      batches := batches + [evs];
      writer := Reporting(|evs|, writer.last);
    }

    /** The transaction of `flush`: drain the buffer row by row, then commit. */
    method CommitBatch(answers: seq<bool>)
      requires Enabled(Snapshot(), Commit(answers))
      modifies this
      ensures Snapshot() == Apply(old(Snapshot()), Commit(answers))
    {
      var evs, inserted := DrainBuffer(answers);
      EndTransaction(evs, inserted, answers);
    }

    method FailBatch()
      requires Enabled(Snapshot(), CommitFails)
      modifies this
      ensures Snapshot() == Apply(old(Snapshot()), CommitFails)
    {
      lost := buf + channel;
      buf, channel, writer := [], [], Failed;
    }

    method ReportBatch()
      requires Enabled(Snapshot(), Report)
      modifies this
      ensures Snapshot() == Apply(old(Snapshot()), Report)
    {
      written := written + writer.n;
      drained := drained + writer.n;
      writer := if writer.last then Finished else Select;
    }

    /** The writer's loop once every sender is gone: it runs dry and leaves, with every accepted
        event committed, provided each commit succeeds. `takes` is what the database says to each row. */
    method WriterLoopAfterClose(takes: E -> bool)
      requires Inv(Snapshot()) && closed && writer.Select?
      modifies this
      ensures Inv(Snapshot()) && writer.Finished? && accepted == old(accepted) && dropped == old(dropped)
      ensures committed == accepted && written == drained == |accepted|
      ensures |took| == |accepted| && rows == Taken(accepted, took)
    {
      while channel != []
        invariant Inv(Snapshot()) && closed && writer.Select?
        invariant accepted == old(accepted) && dropped == old(dropped)
        decreases |channel|
      {
        InvStep(Snapshot(), Recv);
        Receive();
        FlushIfDue(takes);
      }
      InvStep(Snapshot(), RecvNone);
      ReceiveEnd();
      FlushIfDue(takes);
      assert accepted == committed + buf + channel + lost;
    }

    /** The flush that follows a receive, when one is due. */
    method FlushIfDue(takes: E -> bool)
      requires Inv(Snapshot())
      modifies this
      ensures Inv(Snapshot()) && accepted == old(accepted) && dropped == old(dropped)
      ensures channel == old(channel) && closed == old(closed)
      ensures old(writer).Flushing? ==> writer == if old(writer).last then Finished else Select
      ensures !old(writer).Flushing? ==> writer == old(writer)
    {
      if writer.Flushing? {
        var answers := seq(|buf|, i requires 0 <= i < |buf| reads this => takes(buf[i]));
        InvStep(Snapshot(), Commit(answers));
        CommitBatch(answers);
        InvStep(Snapshot(), Report);
        ReportBatch();
      }
    }
  }
}
