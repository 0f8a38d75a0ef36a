/** Divergence step and preference pairs (src/persistence/replay/engine.py:283-307, src/persistence/replay/dpo.py). */
module Dpo {
  import opened Wrappers
  import opened Effects
  import opened Engine

  /** The first step at which the actions differ, over the common length. */
  function DivergenceFrom(a: seq<Fact>, b: seq<Fact>, i: nat): (d: Option<nat>)
    ensures d.None? ==> forall k :: i <= k < |a| && k < |b| ==> a[k].action == b[k].action
    ensures d.Some? ==> i <= d.value < |a| && d.value < |b| && a[d.value].action != b[d.value].action
    ensures d.Some? ==> forall k :: i <= k < d.value ==> a[k].action == b[k].action
    decreases |a| - i
  {
    if i >= |a| || i >= |b| then None
    else if a[i].action != b[i].action then Some(i)
    else DivergenceFrom(a, b, i + 1)
  }

  function DivergenceStep(a: Trajectory, b: Trajectory): Option<nat> {
    DivergenceFrom(a.facts, b.facts, 0)
  }

  method Divergence(a: Trajectory, b: Trajectory) returns (d: Option<nat>)
    ensures d == DivergenceStep(a, b)
  {
    var i := 0;
    while i < |a.facts| && i < |b.facts|
      invariant DivergenceStep(a, b) == DivergenceFrom(a.facts, b.facts, i)
      decreases |a.facts| - i
    {
      if a.facts[i].action != b.facts[i].action {
        return Some(i);
      }
      i := i + 1;
    }
    d := None;
  }

  /** `_prefix_matches`. */
  predicate PrefixMatches(a: Trajectory, b: Trajectory, upTo: int) {
    forall k :: 0 <= k < upTo ==>
      && k < |a.facts| && k < |b.facts|
      && a.facts[k].state == b.facts[k].state && a.facts[k].obs == b.facts[k].obs
      && a.facts[k].llmOut == b.facts[k].llmOut && a.facts[k].action == b.facts[k].action
  }

  datatype Pair = Pair(prompt: Doc, chosen: Doc, rejected: Doc, margin: real)

  function Pnl(t: Trajectory): real {
    GetOr(t.outcome, "pnl", 0.0)
  }

  function Margin(a: Trajectory, b: Trajectory): real {
    if Pnl(b) < Pnl(a) then Pnl(a) - Pnl(b) else Pnl(b) - Pnl(a)
  }

  function ExtractPair(factual: Trajectory, counterfactual: Trajectory, threshold: real): Option<Pair>
    requires counterfactual.branchPoint.Some? ==> counterfactual.branchPoint.value >= 0
  {
    if counterfactual.branchPoint.None? then None
    else
      var branch := counterfactual.branchPoint.value;
      if branch >= |factual.facts| || branch >= |counterfactual.facts| then None
      else if !PrefixMatches(factual, counterfactual, branch) then None
      else if Margin(factual, counterfactual) <= threshold then None
      else
        var (winner, loser) := if Pnl(counterfactual) > Pnl(factual) then (counterfactual, factual)
                               else (factual, counterfactual);
        Some(Pair(factual.facts[branch].llmIn, winner.facts[branch].llmOut, loser.facts[branch].llmOut,
                  Margin(factual, counterfactual)))
  }
}
