/** Stretches of runs with the steps that make them: which thread moved, and what the environment supplied to it. */
module Traces {
  import opened Registry
  import opened Scenarios

  datatype Act = Act(t: Thread, ch: Choice)

  ghost predicate Takes(s: State, a: Act, s': State) {
    Allowed(s, a.t, a.ch) && Step(s, a.t, a.ch) == Ok(s')
  }

  /** A stretch of a run: any steps of any threads, from any reachable state on. */
  ghost predicate Trace(tr: seq<State>, acts: seq<Act>) {
    |tr| == |acts| + 1 && Reachable(tr[0]) && forall i :: 0 <= i < |acts| ==> Takes(tr[i], acts[i], tr[i + 1])
  }

  lemma {:induction false} TraceReachable(tr: seq<State>, acts: seq<Act>, i: nat)
    requires Trace(tr, acts) && i < |tr|
    ensures Reachable(tr[i])
  {
    hide Reachable, Step, Allowed;
    if i > 0 {
      TraceReachable(tr, acts, i - 1);
      assert Takes(tr[i - 1], acts[i - 1], tr[i - 1 + 1]);
      Reaches(tr[i - 1], acts[i - 1].t, acts[i - 1].ch, tr[i]);
    }
  }

  /** A stretch with one more step in front. */
  lemma Prepended(s: State, a: Act, tr: seq<State>, acts: seq<Act>) returns (tr': seq<State>, acts': seq<Act>)
    requires Reachable(s) && Trace(tr, acts) && Takes(s, a, tr[0])
    ensures Trace(tr', acts') && tr' == [s] + tr && acts' == [a] + acts
  {
    hide Reachable, Takes;
    tr', acts' := [s] + tr, [a] + acts;
    forall i | 0 <= i < |acts'|
      ensures Takes(tr'[i], acts'[i], tr'[i + 1])
    {
      assert i > 0 ==> Takes(tr[i - 1], acts[i - 1], tr[i - 1 + 1]);
    }
  }

  const ALL := Scope({Reg, Ep, Op}, {})

  lemma TraceIsChain(tr: seq<State>, acts: seq<Act>)
    requires Trace(tr, acts)
    ensures Chain(ALL, tr)
  {
    hide Reachable, Step, Allowed;
    forall i | 0 <= i < |tr| - 1
      ensures Moves(ALL, tr[i], tr[i + 1])
    {
      assert Takes(tr[i], acts[i], tr[i + 1]);
      assert acts[i].t == Reg || acts[i].t == Ep || acts[i].t == Op;
    }
  }

  /** Every run is such a stretch, from the start. */
  lemma {:induction false} RunIsTrace(tr: seq<State>) returns (acts: seq<Act>)
    requires Run(tr)
    ensures Trace(tr, acts)
    decreases |tr|
  {
    hide Step, Allowed, INIT, Reachable;
    StartReachable();
    var n := |tr| - 1;
    if n == 0 {
      acts := [];
    } else {
      var front := tr[..n];
      forall i | 0 <= i < |front| - 1
        ensures Next(front[i], front[i + 1])
      {
        assert Next(tr[i], tr[i + 1]);
      }
      var some := RunIsTrace(front);
      assert Next(tr[n - 1], tr[n - 1 + 1]);
      var t: Thread, ch: Choice :| Allowed(tr[n - 1], t, ch) && Step(tr[n - 1], t, ch) == Ok(tr[n]);
      acts := some + [Act(t, ch)];
      forall i | 0 <= i < |acts|
        ensures Takes(tr[i], acts[i], tr[i + 1])
      {
        assert i < |some| ==> Takes(front[i], some[i], front[i + 1]);
      }
    }
  }
}
