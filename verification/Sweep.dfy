/** Why sweeping a per-key table can go unnoticed. A tracker keeps one state per key, created on
    first use; a sweep drops some entries. If every dropped entry behaves from then on like a
    fresh one, no verdict of any run depends on the sweeps. */
module Sweep {

  /** One tracker: its fresh entry, what a use does to an entry and answers, which entries a sweep
      drops, and when two entries are told apart by nothing that happens from `t` on.
      Times before `epoch` are not considered. */
  datatype Tracker<!S, !X, !V> = Tracker(
    epoch: nat,
    blank: S,
    step: (S, X, nat) -> S,
    verdict: (S, X, nat) -> V,
    drops: (S, nat) -> bool,
    alike: (S, S, nat) -> bool)

  ghost predicate Sound<S(!new), X(!new), V>(m: Tracker<S, X, V>) {
    && (forall s, t | t >= m.epoch :: m.alike(s, s, t))
    && (forall s, s', t, t' | m.epoch <= t <= t' && m.alike(s, s', t) :: m.alike(s, s', t'))
    && (forall s, s', t | t >= m.epoch && m.alike(s, s', t) && m.drops(s, t) :: m.alike(m.blank, s', t))
    && (forall s, s', x, t | t >= m.epoch && m.alike(s, s', t) ::
          && m.verdict(s, x, t) == m.verdict(s', x, t)
          && m.alike(m.step(s, x, t), m.step(s', x, t), t))
  }

  /** The usual case: an entry that has run its time is forgotten by the next use. */
  lemma ResetIsSound<S(!new), X(!new), V>(m: Tracker<S, X, V>, over: (S, nat) -> bool)
    requires forall s, s', t :: m.alike(s, s', t) <==> s == s' || (over(s, t) && over(s', t))
    requires forall s, t, t' | t <= t' && over(s, t) :: over(s, t')
    requires forall s, t | t >= m.epoch && m.drops(s, t) :: over(s, t)
    requires forall t | t >= m.epoch :: over(m.blank, t)
    requires forall s, s', x, t | over(s, t) && over(s', t) ::
      m.verdict(s, x, t) == m.verdict(s', x, t) && m.step(s, x, t) == m.step(s', x, t)
    ensures Sound(m)
  {
    forall s, s', t: nat, t': nat | m.epoch <= t <= t' && m.alike(s, s', t)
      ensures m.alike(s, s', t')
    {
    }
    forall s, s', x, t | t >= m.epoch && m.alike(s, s', t)
      ensures m.verdict(s, x, t) == m.verdict(s', x, t) && m.alike(m.step(s, x, t), m.step(s', x, t), t)
    {
    }
  }

  function Get<K, S>(table: map<K, S>, k: K, blank: S): S {
    if k in table then table[k] else blank
  }

  function Swept<K, S, X, V>(m: Tracker<S, X, V>, table: map<K, S>, t: nat): map<K, S> {
    map k | k in table && !m.drops(table[k], t) :: table[k]
  }

  function Used<K, S, X, V>(m: Tracker<S, X, V>, table: map<K, S>, k: K, x: X, t: nat): map<K, S> {
    table[k := m.step(Get(table, k, m.blank), x, t)]
  }

  datatype Event<K, X> = Use(k: K, x: X, t: nat) | Sweep(t: nat)

  /** The verdicts a run returns, one per use. */
  function Verdicts<K, S, X, V>(m: Tracker<S, X, V>, table: map<K, S>, run: seq<Event<K, X>>): seq<V>
    decreases |run|
  {
    if run == [] then []
    else match run[0]
      case Use(k, x, t) =>
        [m.verdict(Get(table, k, m.blank), x, t)] + Verdicts(m, Used(m, table, k, x, t), run[1..])
      case Sweep(t) => Verdicts(m, Swept(m, table, t), run[1..])
  }

  function Uses<K, X>(run: seq<Event<K, X>>): seq<Event<K, X>> {
    if run == [] then []
    else if run[0].Use? then [run[0]] + Uses(run[1..])
    else Uses(run[1..])
  }

  /** The clock never runs backwards. */
  predicate InOrder<K, X>(run: seq<Event<K, X>>, now: nat) {
    run == [] || (now <= run[0].t && InOrder(run[1..], run[0].t))
  }

  /** The table after one event, and after a run. */
  function Stepped<K, S, X, V>(m: Tracker<S, X, V>, table: map<K, S>, e: Event<K, X>): map<K, S> {
    match e
    case Use(k, x, t) => Used(m, table, k, x, t)
    case Sweep(t) => Swept(m, table, t)
  }

  function After<K, S, X, V>(m: Tracker<S, X, V>, table: map<K, S>, run: seq<Event<K, X>>): map<K, S>
    decreases |run|
  {
    if run == [] then table else After(m, Stepped(m, table, run[0]), run[1..])
  }

  lemma {:induction false} AfterSnoc<K, S, X, V>(
      m: Tracker<S, X, V>, table: map<K, S>, run: seq<Event<K, X>>, e: Event<K, X>)
    ensures After(m, table, run + [e]) == Stepped(m, After(m, table, run), e)
    decreases |run|
  {
    if run == [] {
      assert [e][1..] == [] && run + [e] == [e];
    } else {
      assert (run + [e])[1..] == run[1..] + [e];
      AfterSnoc(m, Stepped(m, table, run[0]), run[1..], e);
    }
  }

  /** The verdict of one last use is that of its entry in the table the run leaves behind. */
  lemma {:induction false} VerdictsSnoc<K, S, X, V>(
      m: Tracker<S, X, V>, table: map<K, S>, run: seq<Event<K, X>>, k: K, x: X, t: nat)
    ensures Verdicts(m, table, run + [Use(k, x, t)])
         == Verdicts(m, table, run) + [m.verdict(Get(After(m, table, run), k, m.blank), x, t)]
    decreases |run|
  {
    var e := Use(k, x, t);
    if run == [] {
      assert [e][1..] == [] && run + [e] == [e];
    } else {
      assert (run + [e])[1..] == run[1..] + [e];
      VerdictsSnoc(m, Stepped(m, table, run[0]), run[1..], k, x, t);
    }
  }

  lemma {:induction false} UsesSnoc<K, X>(run: seq<Event<K, X>>, e: Event<K, X>)
    ensures Uses(run + [e]) == Uses(run) + (if e.Use? then [e] else [])
  {
    if run == [] {
      assert [e][1..] == [] && run + [e] == [e];
    } else {
      assert (run + [e])[1..] == run[1..] + [e];
      UsesSnoc(run[1..], e);
    }
  }

  ghost predicate Indistinct<K(!new), S, X, V>(m: Tracker<S, X, V>, a: map<K, S>, b: map<K, S>, t: nat) {
    forall k :: m.alike(Get(a, k, m.blank), Get(b, k, m.blank), t)
  }

  lemma SweepStep<K(!new), S(!new), X(!new), V>(m: Tracker<S, X, V>, a: map<K, S>, b: map<K, S>, now: nat, t: nat)
    requires Sound(m) && m.epoch <= now <= t && Indistinct(m, a, b, now)
    ensures Indistinct(m, Swept(m, a, t), b, t)
  {
    forall k
      ensures m.alike(Get(Swept(m, a, t), k, m.blank), Get(b, k, m.blank), t)
    {
      assert m.alike(Get(a, k, m.blank), Get(b, k, m.blank), now);
      assert m.alike(Get(a, k, m.blank), Get(b, k, m.blank), t);
    }
  }

  lemma UseStep<K(!new), S(!new), X(!new), V>(
      m: Tracker<S, X, V>, a: map<K, S>, b: map<K, S>, now: nat, k: K, x: X, t: nat)
    requires Sound(m) && m.epoch <= now <= t && Indistinct(m, a, b, now)
    ensures m.verdict(Get(a, k, m.blank), x, t) == m.verdict(Get(b, k, m.blank), x, t)
    ensures Indistinct(m, Used(m, a, k, x, t), Used(m, b, k, x, t), t)
  {
    var a', b' := Used(m, a, k, x, t), Used(m, b, k, x, t);
    forall j
      ensures m.alike(Get(a, j, m.blank), Get(b, j, m.blank), t)
      ensures m.alike(Get(a', j, m.blank), Get(b', j, m.blank), t)
    {
      assert m.alike(Get(a, j, m.blank), Get(b, j, m.blank), now);
    }
  }

  lemma {:induction false} SameVerdicts<K(!new), S(!new), X(!new), V>(
      m: Tracker<S, X, V>, a: map<K, S>, b: map<K, S>, now: nat, run: seq<Event<K, X>>)
    requires Sound(m) && m.epoch <= now && Indistinct(m, a, b, now) && InOrder(run, now)
    ensures Verdicts(m, a, run) == Verdicts(m, b, Uses(run))
    decreases |run|
  {
    if run != [] {
      var t := run[0].t;
      match run[0]
      case Use(k, x, _) =>
        UseStep(m, a, b, now, k, x, t);
        SameVerdicts(m, Used(m, a, k, x, t), Used(m, b, k, x, t), t, run[1..]);
        assert Uses(run)[1..] == Uses(run[1..]);
      case Sweep(_) =>
        SweepStep(m, a, b, now, t);
        SameVerdicts(m, Swept(m, a, t), b, t, run[1..]);
    }
  }

  /** Sweeps inserted anywhere in a run of a sound tracker change none of its verdicts. */
  lemma SweepsAreInvisible<K(!new), S(!new), X(!new), V>(m: Tracker<S, X, V>, run: seq<Event<K, X>>)
    requires Sound(m) && InOrder(run, m.epoch)
    ensures Verdicts(m, map[], run) == Verdicts(m, map[], Uses(run))
  {
    assert Indistinct<K, S, X, V>(m, map[], map[], m.epoch);
    SameVerdicts(m, map[], map[], m.epoch, run);
  }

  // ---- A tracker that sweeps itself ----

  /** The answers of a running tracker that sweeps on its own account before a use, whenever that is
      due given the time of its last sweep. */
  function Answers<K, S, X, V>(m: Tracker<S, X, V>, due: (nat, nat) -> bool, table: map<K, S>, last: nat,
                               uses: seq<Event<K, X>>): seq<V>
    requires forall i | 0 <= i < |uses| :: uses[i].Use?
    decreases |uses|
  {
    if uses == [] then []
    else
      var (k, x, t) := (uses[0].k, uses[0].x, uses[0].t);
      var now := if due(t, last) then Swept(m, table, t) else table;
      [m.verdict(Get(now, k, m.blank), x, t)]
      + Answers(m, due, Used(m, now, k, x, t), if due(t, last) then t else last, uses[1..])
  }

  lemma {:induction false} AnswersAsUnswept<K(!new), S(!new), X(!new), V>(
      m: Tracker<S, X, V>, due: (nat, nat) -> bool, a: map<K, S>, b: map<K, S>, now: nat, last: nat,
      uses: seq<Event<K, X>>)
    requires Sound(m) && m.epoch <= now && Indistinct(m, a, b, now) && InOrder(uses, now)
    requires forall i | 0 <= i < |uses| :: uses[i].Use?
    ensures Answers(m, due, a, last, uses) == Verdicts(m, b, uses)
    decreases |uses|
  {
    if uses != [] {
      var (k, x, t) := (uses[0].k, uses[0].x, uses[0].t);
      SweepStep(m, a, b, now, t);
      var (swept, next) := if due(t, last) then (Swept(m, a, t), t) else (a, last);
      var from := if due(t, last) then t else now;
      assert Indistinct(m, swept, b, from);
      UseStep(m, swept, b, from, k, x, t);
      AnswersAsUnswept(m, due, Used(m, swept, k, x, t), Used(m, b, k, x, t), t, next, uses[1..]);
    }
  }

  /** A sound tracker that sweeps itself, on whatever schedule, answers every run of uses as if it never
      swept. */
  lemma SelfSweeping<K(!new), S(!new), X(!new), V>(
      m: Tracker<S, X, V>, due: (nat, nat) -> bool, last: nat, uses: seq<Event<K, X>>)
    requires Sound(m) && InOrder(uses, m.epoch) && forall i | 0 <= i < |uses| :: uses[i].Use?
    ensures Answers(m, due, map[], last, uses) == Verdicts(m, map[], uses)
  {
    assert Indistinct<K, S, X, V>(m, map[], map[], m.epoch);
    AnswersAsUnswept(m, due, map[], map[], m.epoch, last, uses);
  }
}
