/** What every state between two turns of the plan search keeps. */
module SearchLaws {
  import opened Plans
  import opened Search
  import opened SearchFlow

  /** The turn from `st` goes on, to `st'`. */
  predicate Follows(s: Setup, st: State, st': State) {
    st.nodes != [] && Turn(s, st) == Next(st')
  }

  predicate StepAt(s: Setup, run: seq<State>, i: int) {
    0 < i < |run| ==> Follows(s, run[i - 1], run[i])
  }

  /** The states a search passes through, from its start on, one a turn. */
  ghost predicate IsRun(s: Setup, run: seq<State>) {
    run != [] && run[0] == Start(s) && forall i: int :: StepAt(s, run, i)
  }

  lemma {:induction false} RunCounts(s: Setup, run: seq<State>, n: nat)
    requires IsRun(s, run) && n < |run|
    ensures run[n].nodes != [] && run[n].iter == n
  {
    hide Turn;
    if n > 0 {
      RunCounts(s, run, n - 1);
      assert StepAt(s, run, n);
    }
  }

  // ---- Conservation --------------------------------------------------------------------------------

  lemma {:induction false} RunIsSound(s: Setup, run: seq<State>, n: nat)
    requires IsRun(s, run) && n < |run|
    ensures Sound(s, run[n])
  {
    hide Sound, Expanded, Evaluated, Linked, Stops, Widened, Table, Start;
    if n == 0 {
      StartIsSound(s);
    } else {
      RunIsSound(s, run, n - 1);
      assert StepAt(s, run, n);
      var st := run[n - 1];
      SoundTable(s, st);
      var w := Select(s, st.nodes, 0, |st.nodes|).value;
      SelectIsLinked(s, st.nodes, 0, |st.nodes|);
      var st1 := st.(streak := StreakAfter(s, st));
      SoundButStreak(s, st, st1);
      ExpandIsSound(s, st1, w.leaf);
      ExpandWidens(s, st1, w.leaf);
      LinkedStays(st.nodes, Expanded(s, st1, w.leaf).value.nodes, w.path, w.leaf);
      EvaluatedIsSound(s, Expanded(s, st1, w.leaf).value, w);
    }
  }

  /** In every state between two turns, for visits and for values alike: what a node counts is what
      left it over its edges plus what ended there; it is also what came in over all edges of the
      table that lead to it, plus, at the root, every backup made. */
  lemma {:induction false} FlowIsConserved(s: Setup, run: seq<State>, n: nat, i: nat, m: Measure)
    requires IsRun(s, run) && n < |run| && i < |run[n].nodes|
    ensures var st := run[n];
            var node := st.nodes[i];
            && NodeFlow(node, m) == OutFlow(node.edges, m) + EndedFlow(st.backups, node.plan, m)
            && NodeFlow(node, m) == InFlow(st.nodes, node.plan, m) + (if i == 0 then AllFlow(st.backups, m) else 0.0)
            && (i == 0 <==> node.plan == s.initial)
  {
    RunIsSound(s, run, n);
    var st := run[n];
    assert Outward(st.nodes, st.backups, m) && Inward(st.nodes, st.backups, m);
  }

  /** A turn whose evaluation fails backs nothing up: it only adds nodes and edges nobody visited,
      and every counter stays. A turn that succeeds makes exactly one backup, of the score cached
      for the plan it ended at. */
  lemma {:induction false} TurnCountsOnceOrNever(s: Setup, st: State)
    requires st.nodes != [] && Turn(s, st).Next?
    ensures var st' := Turn(s, st).state;
            || (st'.backups == st.backups && Widened(st.nodes, st'.nodes) && st'.failures == st.failures + 1
                && st'.attempts == st.attempts + 1 && st'.scores == st.scores)
            || (|st'.backups| == |st.backups| + 1 && st.backups <= st'.backups && st'.failures == st.failures
                && var b := st'.backups[|st.backups|];
                   b.leaf in st'.scores && st'.scores[b.leaf] == b.score)
  {
    hide Select, Expanded, Stops, Widened, BackAlong, BackLeaf;
    var w := Select(s, st.nodes, 0, |st.nodes|).value;
    var st1 := st.(streak := StreakAfter(s, st));
    ExpandWidens(s, st1, w.leaf);
    ExpandKeepsScores(s, st1, w.leaf);
  }

  lemma {:induction false} ExpandKeepsScores(s: Setup, st: State, i: nat)
    requires i < |st.nodes| && Expanded(s, st, i).Ok?
    ensures var st' := Expanded(s, st, i).value;
            st'.scores == st.scores && st'.attempts == st.attempts && st'.failures == st.failures
            && st'.backups == st.backups
  {
    hide Grown, PriorsOff;
  }

  // ---- Means stay within the scores ------------------------------------------------------------------

  predicate Between(lo: real, visits: nat, total: real, hi: real) {
    lo * visits as real <= total <= hi * visits as real
  }

  predicate EdgesBetween(lo: real, edges: seq<Edge>, hi: real) {
    forall j :: 0 <= j < |edges| ==> Between(lo, edges[j].visits, edges[j].total, hi)
  }

  predicate NodesBetween(lo: real, nodes: seq<Node>, hi: real) {
    forall i :: 0 <= i < |nodes| ==>
      Between(lo, nodes[i].visits, nodes[i].total, hi) && EdgesBetween(lo, nodes[i].edges, hi)
  }

  lemma {:induction false} OneMoreBetween(lo: real, visits: nat, total: real, score: real, hi: real)
    requires lo <= score <= hi && Between(lo, visits, total, hi)
    ensures Between(lo, visits + 1, total + score, hi)
  {
    assert lo * (visits + 1) as real == lo * visits as real + lo;
    assert hi * (visits + 1) as real == hi * visits as real + hi;
  }

  lemma {:induction false} BackHopBetween(lo: real, nodes: seq<Node>, h: Hop, score: real, hi: real)
    requires lo <= score <= hi && NodesBetween(lo, nodes, hi)
    ensures NodesBetween(lo, BackHop(nodes, h, score), hi)
  {
    hide Between;
    if HopOk(nodes, h) {
      var n := nodes[h.node];
      var e := n.edges[h.edge];
      OneMoreBetween(lo, n.visits, n.total, score, hi);
      OneMoreBetween(lo, e.visits, e.total, score, hi);
      var edges := n.edges[h.edge := e.(visits := e.visits + 1, total := e.total + score)];
      assert EdgesBetween(lo, n.edges, hi);
      assert EdgesBetween(lo, edges, hi);
    }
  }

  lemma {:induction false} BackAlongBetween(lo: real, nodes: seq<Node>, path: seq<Hop>, score: real, hi: real)
    requires lo <= score <= hi && NodesBetween(lo, nodes, hi)
    ensures NodesBetween(lo, BackAlong(nodes, path, score), hi)
    decreases |path|
  {
    hide NodesBetween, BackHop;
    if path != [] {
      BackAlongBetween(lo, nodes, path[..|path| - 1], score, hi);
      BackHopBetween(lo, BackAlong(nodes, path[..|path| - 1], score), path[|path| - 1], score, hi);
    }
  }

  lemma {:induction false} BackLeafBetween(lo: real, nodes: seq<Node>, i: nat, score: real, hi: real)
    requires lo <= score <= hi && NodesBetween(lo, nodes, hi) && i < |nodes|
    ensures NodesBetween(lo, BackLeaf(nodes, i, score), hi)
  {
    OneMoreBetween(lo, nodes[i].visits, nodes[i].total, score, hi);
  }

  lemma {:induction false} WidenedBetween(lo: real, a: seq<Node>, b: seq<Node>, hi: real)
    requires NodesBetween(lo, a, hi) && Widened(a, b)
    ensures NodesBetween(lo, b, hi)
  {
    forall i | 0 <= i < |b|
      ensures Between(lo, b[i].visits, b[i].total, hi) && EdgesBetween(lo, b[i].edges, hi)
    {
      forall j | 0 <= j < |b[i].edges| ensures Between(lo, b[i].edges[j].visits, b[i].edges[j].total, hi) {
        if i < |a| && j < |a[i].edges| {
          assert EdgesBetween(lo, a[i].edges, hi) && b[i].edges[j] == a[i].edges[j];
        }
      }
    }
  }

  /** Whatever it is asked, the evaluator scores within the bounds. */
  ghost predicate Scored(s: Setup, lo: real, hi: real) {
    forall p: Plan, n: nat :: s.evaluate(p, n).Score? ==> lo <= s.evaluate(p, n).value <= hi
  }

  ghost predicate Bounded(st: State, lo: real, hi: real) {
    NodesBetween(lo, st.nodes, hi) && forall p :: p in st.scores ==> lo <= st.scores[p] <= hi
  }

  lemma {:induction false} EvaluatedBetween(s: Setup, lo: real, st: State, w: Walk, hi: real)
    requires Scored(s, lo, hi) && Bounded(st, lo, hi) && w.leaf < |st.nodes|
    ensures Bounded(Evaluated(s, st, w), lo, hi)
  {
    hide NodesBetween, BackAlong, BackLeaf;
    var plan := st.nodes[w.leaf].plan;
    if plan in st.scores || s.evaluate(plan, st.attempts).Score? {
      var score := if plan in st.scores then st.scores[plan] else s.evaluate(plan, st.attempts).value;
      BackAlongBetween(lo, st.nodes, w.path, score, hi);
      BackLeafBetween(lo, BackAlong(st.nodes, w.path, score), w.leaf, score, hi);
    }
  }

  lemma {:induction false} RunBetween(s: Setup, lo: real, run: seq<State>, n: nat, hi: real)
    requires Scored(s, lo, hi) && IsRun(s, run) && n < |run|
    ensures Bounded(run[n], lo, hi)
  {
    hide Select, Expanded, Stops, Evaluated, NodesBetween, Scored, Widened;
    if n == 0 {
      StartBetween(s, lo, hi);
    } else {
      RunBetween(s, lo, run, n - 1, hi);
      assert StepAt(s, run, n);
      var st := run[n - 1];
      var w := Select(s, st.nodes, 0, |st.nodes|).value;
      var st1 := st.(streak := StreakAfter(s, st));
      ExpandWidens(s, st1, w.leaf);
      ExpandKeepsScores(s, st1, w.leaf);
      WidenedBetween(lo, st.nodes, Expanded(s, st1, w.leaf).value.nodes, hi);
      EvaluatedBetween(s, lo, Expanded(s, st1, w.leaf).value, w, hi);
    }
  }

  lemma {:induction false} StartBetween(s: Setup, lo: real, hi: real)
    ensures Bounded(Start(s), lo, hi)
  {
    assert lo * 0.0 == 0.0 && hi * 0.0 == 0.0;
  }

  lemma {:induction false} ScalingKeepsSign(d: real, n: nat)
    requires n > 0
    ensures d >= 0.0 <==> d * n as real >= 0.0
  {
    if n > 1 {
      ScalingKeepsSign(d, n - 1);
      assert d * n as real == d * (n - 1) as real + d;
    }
  }

  lemma {:induction false} MeanBetween(lo: real, visits: nat, total: real, hi: real)
    requires Between(lo, visits, total, hi) && visits > 0
    ensures lo <= Mean(visits, total) <= hi
  {
    var v, q := visits as real, Mean(visits, total);
    assert total == q * v;
    ScalingKeepsSign(q - lo, visits);
    ScalingKeepsSign(hi - q, visits);
    assert (q - lo) * v == q * v - lo * v && (hi - q) * v == hi * v - q * v;
  }

  /** If every score lies in [lo, hi], so does the mean of every node and edge anything passed through. */
  lemma {:induction false} MeansStayBetween(s: Setup, lo: real, run: seq<State>, n: nat, i: nat, j: nat, hi: real)
    requires Scored(s, lo, hi) && IsRun(s, run) && n < |run| && i < |run[n].nodes|
    ensures var node := run[n].nodes[i];
            && (node.visits > 0 ==> lo <= Mean(node.visits, node.total) <= hi)
            && (j < |node.edges| && node.edges[j].visits > 0
                ==> lo <= Mean(node.edges[j].visits, node.edges[j].total) <= hi)
  {
    hide Mean, Scored, IsRun;
    RunBetween(s, lo, run, n, hi);
    var node := run[n].nodes[i];
    assert EdgesBetween(lo, node.edges, hi);
    if node.visits > 0 {
      MeanBetween(lo, node.visits, node.total, hi);
    }
    if j < |node.edges| && node.edges[j].visits > 0 {
      MeanBetween(lo, node.edges[j].visits, node.edges[j].total, hi);
    }
  }
}
