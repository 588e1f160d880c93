/** What the engine answers, and the reasons it collects on the way. */
module Decision {
  import opened Words

  datatype Action = Allow | Challenge | Block | Tarpit

  datatype Reason = Reason(ruleId: string, score: nat)

  datatype Decision = Decision(action: Action, status: nat, score: nat, reasons: seq<Reason>)

  function Allowed(): Decision {
    Decision(Allow, 200, 0, [])
  }

  function Blocked(status: nat, r: Reason): Decision {
    Decision(Block, status, r.score, [r])
  }

  function Challenged(score: nat, reasons: seq<Reason>): Decision {
    Decision(Challenge, 403, score, reasons)
  }

  function Tarpitted(score: nat, reasons: seq<Reason>): Decision {
    Decision(Tarpit, 200, score, reasons)
  }

  /** `Decision::add_reason`: the score saturates at 32 bits. */
  function Added(d: Decision, r: Reason): Decision {
    d.(score := SatAdd32(d.score, r.score), reasons := d.reasons + [r])
  }

  function Total(reasons: seq<Reason>): nat {
    if reasons == [] then 0 else Total(reasons[..|reasons| - 1]) + reasons[|reasons| - 1].score
  }

  /** The score of a decision is the sum of its reasons' scores, cut off at 32 bits only once. */
  predicate Sums(d: Decision) {
    d.score == Min(Total(d.reasons), U32_MAX)
  }

  lemma AddedSums(d: Decision, r: Reason)
    requires Sums(d)
    ensures Sums(Added(d, r))
  {
    assert (d.reasons + [r])[..|d.reasons|] == d.reasons;
  }

  /** Add the reasons one by one. */
  method AddAll(d: Decision, reasons: seq<Reason>) returns (r: Decision)
    requires Sums(d)
    ensures Sums(r) && r.reasons == d.reasons + reasons && r.action == d.action && r.status == d.status
  {
    r := d;
    var i := 0;
    while i < |reasons|
      invariant i <= |reasons| && Sums(r) && r.reasons == d.reasons + reasons[..i]
      invariant r.action == d.action && r.status == d.status
    {
      AddedSums(r, reasons[i]);
      r := Added(r, reasons[i]);
      assert reasons[..i + 1] == reasons[..i] + [reasons[i]];
      i := i + 1;
    }
    assert reasons[..i] == reasons;
  }
}
