/**
  How the steps of applying a block or a transaction come out. Each step is recorded as
  it happens, with what it returned or threw; what is applied ends as the steps say.
*/
module Verdicts {
  import opened Int64
  import opened State
  import opened Context

  datatype Stage =
    | Asked(sid: Sid)               // a system call
    | Agreed(sid: Sid, code: int)   // one that must answer yes, or else `code` is thrown
    | Covers(sid: Sid, limit: u64)  // one that must answer with at least the limit
    | Assisted                      // the system calls native helpers make
    | Checked                       // a comparison of hashes, ids or signatures
    | Charged(bytes: i64)           // network bandwidth
    | Performed(operation: nat)     // an operation of a transaction
    | Transaction(id: string)       // a transaction of a block

  datatype Verdict = Verdict(stage: Stage, outcome: Outcome)

  /** What a verdict means for what it is a step of. */
  function Effect(v: Verdict): Outcome {
    match v.stage
    case Agreed(_, code) => if v.outcome.Returned? && !v.outcome.flag then Thrown(code) else v.outcome
    case Covers(_, limit) =>
      if v.outcome.Returned? && v.outcome.number < limit then Thrown(FAILURE) else v.outcome
    case _ => v.outcome
  }

  predicate Passes(v: Verdict) {
    Effect(v).Returned?
  }

  /**
    From log `a` to log `b` the steps of `plan` were taken in order, each after the one
    before it passed: all of them if `o` returns, and else up to one that did not pass,
    which is how it ended.
  */
  ghost predicate Trail(a: seq<Verdict>, b: seq<Verdict>, plan: seq<Stage>, o: Outcome) {
    var n := |b| - |a|;
    && a <= b && n <= |plan|
    && (forall i {:trigger plan[i]} :: 0 <= i < n ==> b[|a| + i].stage == plan[i])
    && (forall i {:trigger b[i]} :: |a| <= i < |b| - 1 ==> Passes(b[i]))
    && if o.Returned? then n == |plan| && (n > 0 ==> Passes(b[|b| - 1]))
       else n > 0 && !Passes(b[|b| - 1]) && o == Effect(b[|b| - 1])
  }

  lemma NoTrail(a: seq<Verdict>, o: Outcome)
    requires o.Returned?
    ensures Trail(a, a, [], o)
  {
  }

  lemma TrailOne(a: seq<Verdict>, v: Verdict, o: Outcome)
    requires if Passes(v) then o.Returned? else o == Effect(v)
    ensures Trail(a, a + [v], [v.stage], o)
  {
    hide Effect;
  }

  /** The next steps are taken once the first have passed. */
  lemma TrailThen(a: seq<Verdict>, b: seq<Verdict>, c: seq<Verdict>, p: seq<Stage>, q: seq<Stage>, o: Outcome, o': Outcome)
    requires Trail(a, b, p, o) && o.Returned? && Trail(b, c, q, o')
    ensures Trail(a, c, p + q, o')
  {
    hide Passes, Effect;
    forall i | 0 <= i < |c| - |a|
      ensures c[|a| + i].stage == (p + q)[i]
    {
      if i < |p| {
        assert c[|a| + i] == b[|a| + i];
      } else {
        assert c[|a| + i] == c[|b| + (i - |p|)];
        assert q[i - |p|] == (p + q)[i];
      }
    }
    forall i | |a| <= i < |c| - 1
      ensures Passes(c[i])
    {
      if i < |b| {
        assert c[i] == b[i];
      }
    }
  }

  /** A step that does not pass is the last. */
  lemma TrailStops(a: seq<Verdict>, b: seq<Verdict>, p: seq<Stage>, q: seq<Stage>, o: Outcome)
    requires Trail(a, b, p, o) && !o.Returned?
    ensures Trail(a, b, p + q, o)
  {
    hide Passes, Effect;
    assert forall i :: 0 <= i < |p| ==> (p + q)[i] == p[i];
  }

  /* ---- the transactions of a block ---- */

  /** The verdicts on whole transactions, in order. */
  function Outcomes(vs: seq<Verdict>): seq<Verdict> {
    if vs == [] then []
    else Outcomes(vs[..|vs| - 1]) + if vs[|vs| - 1].stage.Transaction? then [vs[|vs| - 1]] else []
  }

  /** Steps within a transaction, or outside any. */
  ghost predicate NoTransactions(plan: seq<Stage>) {
    forall i :: 0 <= i < |plan| ==> !plan[i].Transaction?
  }

  lemma OutcomesSnoc(vs: seq<Verdict>, v: Verdict)
    ensures Outcomes(vs + [v]) == Outcomes(vs) + if v.stage.Transaction? then [v] else []
  {
    assert (vs + [v])[..|vs|] == vs;
  }

  lemma {:induction false} OutcomesStay(a: seq<Verdict>, b: seq<Verdict>)
    requires a <= b && forall i :: |a| <= i < |b| ==> !b[i].stage.Transaction?
    ensures Outcomes(b) == Outcomes(a)
    decreases |b|
  {
    if |a| < |b| {
      OutcomesStay(a, b[..|b| - 1]);
    } else {
      assert a == b;
    }
  }

  lemma TrailKeepsOutcomes(a: seq<Verdict>, b: seq<Verdict>, plan: seq<Stage>, o: Outcome)
    requires Trail(a, b, plan, o) && NoTransactions(plan)
    ensures Outcomes(b) == Outcomes(a)
  {
    hide Passes, Effect;
    forall i | |a| <= i < |b|
      ensures !b[i].stage.Transaction?
    {
      assert b[|a| + (i - |a|)].stage == plan[i - |a|];
    }
    OutcomesStay(a, b);
  }

  /** A block goes on after a transaction that returned or reverted. */
  predicate GoesOn(o: Outcome) {
    o.Returned? || (o.Thrown? && o.code > 0)
  }

  /**
    The transactions of a block were tried in order. Every one that returned or reverted
    is followed by the next; the first that did neither ends the block, with its own
    outcome; and the block gets past its transactions if and only if there is none such.
  */
  ghost predicate Swallows(ids: seq<string>, tried: seq<Verdict>, o: Outcome) {
    var n := |tried|;
    && n <= |ids|
    && (forall i :: 0 <= i < n ==> tried[i].stage == Transaction(ids[i]))
    && (forall i {:trigger tried[i]} :: 0 <= i < n - 1 ==> GoesOn(tried[i].outcome))
    && if o.Returned? then n == |ids| && (n > 0 ==> GoesOn(tried[n - 1].outcome))
       else n > 0 && !GoesOn(tried[n - 1].outcome) && o == tried[n - 1].outcome
  }

  /** One more transaction. */
  lemma SwallowsNext(ids: seq<string>, done: nat, tried: seq<Verdict>, v: Verdict, o: Outcome)
    requires done < |ids| && Swallows(ids[..done], tried, Done) && v.stage == Transaction(ids[done])
    requires if GoesOn(v.outcome) then o.Returned? else o == v.outcome
    ensures Swallows(ids[..done + 1], tried + [v], o)
  {
    assert forall i :: 0 <= i < done ==> ids[..done + 1][i] == ids[..done][i];
  }

  /** A block that ended early tried no more. */
  lemma SwallowsAll(ids: seq<string>, done: nat, tried: seq<Verdict>, o: Outcome)
    requires done <= |ids| && Swallows(ids[..done], tried, o) && (o.Returned? ==> done == |ids|)
    ensures Swallows(ids, tried, o)
  {
    hide GoesOn;
    assert done == |ids| ==> ids[..done] == ids;
    assert forall i :: 0 <= i < done ==> ids[..done][i] == ids[i];
  }
}
