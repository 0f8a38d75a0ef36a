/** What SELECT prefers, and when the plan search stops (src/persistence/plan/_mcts.py:594-617, 886-944). */
module SearchChoices {
  import opened Wrappers
  import opened Plans
  import opened Search
  import opened SearchFlow
  import opened SearchLaws
  import opened SearchEnds

  // ---- The selection score ----------------------------------------------------------------

  /** A mean is what visits times it gives the total; nothing visited has mean zero. */
  lemma {:induction false} MeanIs(visits: nat, total: real)
    ensures visits > 0 ==> Mean(visits, total) * visits as real == total
    ensures visits == 0 ==> Mean(visits, total) == 0.0
  {}

  /** The weight of exploration under a node: the square root of its visits, 1 before the first. */
  function Weight(s: Setup, node: Node): real {
    if node.visits == 0 then 1.0 else s.sqrt(node.visits)
  }

  /** The selection score is the mean and a bonus; the bonus times one more than the visits is the constant times
      the prior times the weight. */
  lemma {:induction false} ScoreIs(s: Setup, node: Node, e: Edge)
    ensures (Puct(s, node.visits, e) - Mean(e.visits, e.total)) * (1 + e.visits) as real
         == s.config.cPuct * e.prior * Weight(s, node)
  {
    var x, n := s.config.cPuct * e.prior * Weight(s, node), (1 + e.visits) as real;
    assert x / n * n == x;
  }

  /** Of two edges of equal mean and prior SELECT prefers the one less visited, as long as exploring counts. */
  lemma {:induction false} FewerVisitsPreferred(s: Setup, node: Node, e: Edge, f: Edge)
    requires Mean(e.visits, e.total) == Mean(f.visits, f.total) && e.prior == f.prior && e.visits < f.visits
    requires s.config.cPuct * e.prior * Weight(s, node) > 0.0
    ensures Puct(s, node.visits, e) > Puct(s, node.visits, f)
  {
    hide Mean, Puct;
    ScoreIs(s, node, e);
    ScoreIs(s, node, f);
    var q := Mean(e.visits, e.total);
    var x, y := Puct(s, node.visits, e) - q, Puct(s, node.visits, f) - q;
    var m, n := (1 + e.visits) as real, (1 + f.visits) as real;
    SameSign(x, m, x * m, 1.0);
    assert (x - y) * n == x * (n - m);
    SameSign(x - y, n, n - m, x);
  }

  /** Of two edges equally visited it prefers the higher mean at equal priors, and the higher prior at equal
      means. */
  lemma {:induction false} MeansAndPriorsPreferred(s: Setup, node: Node, e: Edge, f: Edge)
    requires e.visits == f.visits
    ensures e.prior == f.prior ==>
              (Puct(s, node.visits, e) > Puct(s, node.visits, f) <==> Mean(e.visits, e.total) > Mean(f.visits, f.total))
    ensures Mean(e.visits, e.total) == Mean(f.visits, f.total) && s.config.cPuct * Weight(s, node) > 0.0 ==>
              (Puct(s, node.visits, e) > Puct(s, node.visits, f) <==> e.prior > f.prior)
  {
    hide Mean, Puct;
    ScoreIs(s, node, e);
    ScoreIs(s, node, f);
    var x := Puct(s, node.visits, e) - Mean(e.visits, e.total);
    var y := Puct(s, node.visits, f) - Mean(f.visits, f.total);
    var n, w := (1 + e.visits) as real, s.config.cPuct * Weight(s, node);
    assert (x - y) * n == w * (e.prior - f.prior);
    SameSign(x - y, n, e.prior - f.prior, w);
  }

  lemma {:induction false} SameSign(d: real, n: real, g: real, w: real)
    requires n > 0.0 && d * n == w * g
    ensures g == 0.0 ==> d == 0.0
    ensures w > 0.0 ==> (d > 0.0 <==> g > 0.0)
  {
    if d > 0.0 {
      assert d * n > 0.0;
    }
    if d < 0.0 {
      assert d * n < 0.0;
    }
    if w > 0.0 {
      if g > 0.0 {
        assert w * g > 0.0;
      } else {
        assert w * g <= 0.0;
      }
    }
  }

  // ---- The priors of a proposal ----------------------------------------------------------------

  /** Proposals are refused when there are some and their priors sum to no less than the tolerance away from 1. */
  lemma {:induction false} PriorsOffIff(props: seq<Proposal>)
    ensures PriorsOff(props) <==>
            |props| > 0 && (SumPriors(props) <= 1.0 - 0.000001 || SumPriors(props) >= 1.0 + 0.000001)
  {}

  lemma {:induction false} PriorsAddUp(a: seq<Proposal>, b: seq<Proposal>)
    ensures SumPriors(a + b) == SumPriors(a) + SumPriors(b)
    ensures |b| == 1 ==> SumPriors(b) == b[0].1
    decreases |b|
  {
    if b == [] {
      assert a + b == a;
    } else {
      assert (a + b)[..|a + b| - 1] == a + b[..|b| - 1];
      PriorsAddUp(a, b[..|b| - 1]);
    }
  }

  /** Edge `e` is proposal `k`, accepted for plan `p`, and no proposal before it was of the same action. */
  predicate IsFirstOf(p: Plan, props: seq<Proposal>, library: Option<Library>, k: nat, e: Edge)
    requires k < |props|
  {
    && e.action == props[k].0 && e.prior == props[k].1 && ApplyAction(p, props[k].0, library) == Ok(e.child)
    && e.visits == 0 && e.total == 0.0
    && forall m :: 0 <= m < k ==> props[m].0 != props[k].0
  }

  /** The edges a leaf gets of the first `n` proposals: those whose positions `from` lists, in their order; every
      other one is rejected or repeats an earlier action. */
  ghost predicate EdgesFrom(p: Plan, props: seq<Proposal>, n: nat, library: Option<Library>, edges: seq<Edge>,
                            from: seq<nat>)
    requires n <= |props|
  {
    && |from| == |edges|
    && (forall j :: 0 <= j < |from| ==> from[j] < n && IsFirstOf(p, props, library, from[j], edges[j]))
    && (forall i, j :: 0 <= i < j < |from| ==> from[i] < from[j])
    && (forall k :: 0 <= k < n && k !in from ==> Passed(p, props, library, k))
  }

  /** Proposal `k` is rejected, or of the same action as an earlier one. */
  ghost predicate Passed(p: Plan, props: seq<Proposal>, library: Option<Library>, k: nat)
    requires k < |props|
  {
    ApplyAction(p, props[k].0, library).Err? || exists m :: 0 <= m < k && props[m].0 == props[k].0
  }

  lemma {:induction false} PopulateKeepsPlan(nodes: seq<Node>, i: nat, props: seq<Proposal>, library: Option<Library>)
    requires i < |nodes|
    ensures Populate(nodes, i, props, library)[i].plan == nodes[i].plan
  {
    PopulateWidens(nodes, i, props, library);
  }

  /** One more proposal: an edge if it is accepted and its action is new, nothing otherwise. */
  lemma {:induction false} OneMoreEdge(nodes: seq<Node>, i: nat, prop: Proposal, library: Option<Library>)
    requires i < |nodes|
    ensures var r, edges := ApplyAction(nodes[i].plan, prop.0, library), nodes[i].edges;
            PopulateOne(nodes, i, prop, library)[i].edges ==
            if r.Ok? && (forall j :: 0 <= j < |edges| ==> edges[j].action != prop.0)
            then edges + [Edge(prop.0, r.value, prop.1, 0, 0.0)] else edges
  {
    hide ApplyAction;
    var edges := nodes[i].edges;
    if forall j :: 0 <= j < |edges| ==> edges[j].action != prop.0 {
      assert !HasAction(edges, prop.0);
    }
  }

  /** An action among the first `n` proposals that the plan accepts is that of some edge. */
  lemma {:induction false} FirstOfAction(p: Plan, props: seq<Proposal>, n: nat, library: Option<Library>,
                                         edges: seq<Edge>, from: seq<nat>, k: nat) returns (j: nat)
    requires n <= |props| && EdgesFrom(p, props, n, library, edges, from)
    requires k < n && ApplyAction(p, props[k].0, library).Ok?
    ensures j < |edges| && edges[j].action == props[k].0
    decreases k
  {
    hide ApplyAction;
    if k in from {
      j :| 0 <= j < |from| && from[j] == k;
      assert IsFirstOf(p, props, library, k, edges[j]);
    } else {
      assert Passed(p, props, library, k);
      var m :| 0 <= m < k && props[m].0 == props[k].0;
      j := FirstOfAction(p, props, n, library, edges, from, m);
    }
  }

  /** A proposal that is rejected or whose action has an edge adds none. */
  lemma {:induction false} NoMoreEdges(p: Plan, props: seq<Proposal>, n: nat, library: Option<Library>,
                                       edges: seq<Edge>, from: seq<nat>)
    requires n < |props| && EdgesFrom(p, props, n, library, edges, from)
    requires ApplyAction(p, props[n].0, library).Err? || exists j :: 0 <= j < |edges| && edges[j].action == props[n].0
    ensures EdgesFrom(p, props, n + 1, library, edges, from)
  {
    hide ApplyAction;
    if j :| 0 <= j < |edges| && edges[j].action == props[n].0 {
      assert IsFirstOf(p, props, library, from[j], edges[j]);
    }
    assert Passed(p, props, library, n);
  }

  lemma {:induction false} NextEdge(p: Plan, props: seq<Proposal>, n: nat, library: Option<Library>,
                                    edges: seq<Edge>, from: seq<nat>, e: Edge)
    requires n < |props| && EdgesFrom(p, props, n, library, edges, from)
    requires forall j :: 0 <= j < |edges| ==> edges[j].action != props[n].0
    requires ApplyAction(p, props[n].0, library) == Ok(e.child)
    requires e == Edge(props[n].0, e.child, props[n].1, 0, 0.0)
    ensures EdgesFrom(p, props, n + 1, library, edges + [e], from + [n])
  {
    hide ApplyAction;
    forall m | 0 <= m < n ensures props[m].0 != props[n].0 {
      if props[m].0 == props[n].0 {
        var j := FirstOfAction(p, props, n, library, edges, from, m);
      }
    }
    assert IsFirstOf(p, props, library, n, e);
    forall k | 0 <= k < n + 1 && k !in from + [n] ensures Passed(p, props, library, k) {
      assert (from + [n])[|from|] == n;
      assert k != n && k !in from;
    }
  }

  /** EXPAND gives a leaf one edge for each action that some proposal makes and the plan accepts, with the child it
      makes, under the prior and in the place of the first proposal of that action. */
  lemma {:induction false} LeafGetsFirstProposals(nodes: seq<Node>, i: nat, props: seq<Proposal>,
                                                  library: Option<Library>, n: nat) returns (from: seq<nat>)
    requires i < |nodes| && nodes[i].edges == [] && n <= |props|
    ensures EdgesFrom(nodes[i].plan, props, n, library, Populate(nodes, i, props[..n], library)[i].edges, from)
  {
    hide PopulateOne, ApplyAction, EdgesFrom;
    var p := nodes[i].plan;
    if n == 0 {
      from := [];
      NoEdgesYet(p, props, library);
    } else {
      from := LeafGetsFirstProposals(nodes, i, props, library, n - 1);
      assert props[..n][..n - 1] == props[..n - 1];
      var mid := Populate(nodes, i, props[..n - 1], library);
      var r := ApplyAction(p, props[n - 1].0, library);
      PopulateKeepsPlan(nodes, i, props[..n - 1], library);
      OneMoreEdge(mid, i, props[n - 1], library);
      if r.Ok? && forall j :: 0 <= j < |mid[i].edges| ==> mid[i].edges[j].action != props[n - 1].0 {
        NextEdge(p, props, n - 1, library, mid[i].edges, from, Edge(props[n - 1].0, r.value, props[n - 1].1, 0, 0.0));
        from := from + [n - 1];
      } else {
        NoMoreEdges(p, props, n - 1, library, mid[i].edges, from);
      }
    }
  }

  lemma {:induction false} NoEdgesYet(p: Plan, props: seq<Proposal>, library: Option<Library>)
    ensures EdgesFrom(p, props, 0, library, [], [])
  {}

  /** What EXPAND does to a node: nothing if it has edges or is terminal; the expander's failure ends the search, and
      so do priors that are off; else its proposals, or those cached, are applied, and a node left without
      an edge becomes terminal. */
  lemma {:induction false} ExpandCases(s: Setup, st: State, i: nat)
    requires i < |st.nodes|
    ensures var node, r := st.nodes[i], Expanded(s, st, i);
            if node.edges != [] || node.isTerminal then r == Ok(st)
            else if node.plan in st.proposals then
              r.Ok? && r.value.asked == st.asked && GrewBy(st, i, st.proposals[node.plan], s.library, r.value)
            else
              match s.propose(node.plan, s.config.expanderK, |st.asked|)
              case None => r == Err(ExpanderRaised)
              case Some(props) =>
                if PriorsOff(props) then r == Err(ExpanderContractError)
                else r.Ok? && r.value.asked == st.asked + [node.plan] && node.plan in r.value.proposals
                     && r.value.proposals[node.plan] == props && GrewBy(st, i, props, s.library, r.value)
  {
    hide Populate, PriorsOff;
    var node := st.nodes[i];
    if node.edges == [] && !node.isTerminal {
      if node.plan in st.proposals {
        GrewIsGrown(st.nodes, i, st.proposals[node.plan], s.library);
      } else if s.propose(node.plan, s.config.expanderK, |st.asked|).Some? {
        GrewIsGrown(st.nodes, i, s.propose(node.plan, s.config.expanderK, |st.asked|).value, s.library);
      }
    }
  }

  /** The node at `i` has the edges its proposals give it and is terminal exactly when it has none; all other nodes
      of the table are as they were, and what was added is unvisited. */
  ghost predicate GrewBy(st: State, i: nat, props: seq<Proposal>, library: Option<Library>, st': State)
    requires i < |st.nodes|
  {
    && |st.nodes| <= |st'.nodes|
    && st'.nodes[i].edges == Populate(st.nodes, i, props, library)[i].edges
    && (st'.nodes[i].isTerminal <==> st'.nodes[i].edges == [])
    && (forall j :: 0 <= j < |st.nodes| && j != i ==> st'.nodes[j] == st.nodes[j])
    && (forall j :: |st.nodes| <= j < |st'.nodes| ==> st'.nodes[j] == Node(st'.nodes[j].plan, 0, 0.0, [], false))
  }

  lemma {:induction false} PopulateTouches(nodes: seq<Node>, i: nat, props: seq<Proposal>, library: Option<Library>)
    requires i < |nodes|
    ensures var r := Populate(nodes, i, props, library);
            && r[i].isTerminal == nodes[i].isTerminal
            && (forall j :: 0 <= j < |nodes| && j != i ==> r[j] == nodes[j])
            && (forall j :: |nodes| <= j < |r| ==> r[j] == Node(r[j].plan, 0, 0.0, [], false))
    decreases |props|
  {
    hide ApplyAction, HasAction, IndexOf;
    if props != [] {
      PopulateTouches(nodes, i, props[..|props| - 1], library);
    }
  }

  lemma {:induction false} GrewIsGrown(nodes: seq<Node>, i: nat, props: seq<Proposal>, library: Option<Library>)
    requires i < |nodes| && !nodes[i].isTerminal
    ensures var r, p := Grown(nodes, i, props, library), Populate(nodes, i, props, library);
            && |r| >= |nodes| && r[i].edges == p[i].edges && (r[i].isTerminal <==> r[i].edges == [])
            && (forall j :: 0 <= j < |nodes| && j != i ==> r[j] == nodes[j])
            && (forall j :: |nodes| <= j < |r| ==> r[j] == Node(r[j].plan, 0, 0.0, [], false))
  {
    hide Populate;
    PopulateTouches(nodes, i, props, library);
  }

  // ---- When the search stops ------------------------------------------------------------------------

  /** Two most visited edges of the root, the first in order where visits are equal: edge `i` and then edge `j`. */
  predicate TopTwo(edges: seq<Edge>, i: nat, j: nat)
    requires i < |edges| && j < |edges|
  {
    && i != j
    && (forall k :: 0 <= k < |edges| ==>
          edges[k].visits < edges[i].visits || (edges[k].visits == edges[i].visits && i <= k))
    && (forall k :: 0 <= k < |edges| && k != i ==>
          edges[k].visits < edges[j].visits || (edges[k].visits == edges[j].visits && j <= k))
  }

  /** The check on the root is due and met: its best edge leads the second by the threshold in mean value. */
  ghost predicate LeadMet(s: Setup, st: State)
    requires st.nodes != []
  {
    var edges := st.nodes[0].edges;
    && s.config.regretThreshold.Some? && st.iter >= s.config.regretWindow && |edges| >= 2
    && forall i, j :: 0 <= i < |edges| && 0 <= j < |edges| && TopTwo(edges, i, j) ==>
         Mean(edges[i].visits, edges[i].total) - Mean(edges[j].visits, edges[j].total)
         >= s.config.regretThreshold.value
  }

  lemma {:induction false} LeadIsOfTopTwo(s: Setup, st: State)
    requires st.nodes != []
    ensures LeadMet(s, st) <==>
            s.config.regretThreshold.Some? && st.iter >= s.config.regretWindow && |st.nodes[0].edges| >= 2
            && Lead(st.nodes[0].edges) >= s.config.regretThreshold.value
  {
    hide Mean, MostVisited;
    var edges := st.nodes[0].edges;
    if |edges| >= 2 {
      var i := MostVisited(edges, |edges|);
      var j := MostVisited(edges, i);
      assert TopTwo(edges, i, j);
      forall k, l | 0 <= k < |edges| && 0 <= l < |edges| && TopTwo(edges, k, l) ensures k == i && l == j {}
    }
  }

  /** Why a turn stops before it runs, in the order asked: the turns are used up; the table is full; the lead has
      been met once more and that is often enough in a row; everything evaluated so far failed. */
  lemma {:induction false} StopsWhen(s: Setup, st: State)
    requires st.nodes != []
    ensures var r := Stops(s, st);
            var regret := LeadMet(s, st) && st.streak + 1 >= s.config.regretWindow;
            && (r == Some(MaxIter) <==> st.iter >= s.config.maxIter)
            && (r == Some(MaxUniquePlans) <==>
                st.iter < s.config.maxIter && |st.nodes| >= s.config.maxUniquePlans)
            && (r == Some(SimpleRegret) <==>
                st.iter < s.config.maxIter && |st.nodes| < s.config.maxUniquePlans && regret)
            && (r == Some(AllEvaluationsFailed) <==>
                st.iter < s.config.maxIter && |st.nodes| < s.config.maxUniquePlans && !regret
                && st.attempts == st.failures > 0)
            && r != Some(Exhausted)
  {
    hide Lead;
    LeadIsOfTopTwo(s, st);
  }

  /** The check on the root is due. */
  predicate LeadDue(s: Setup, st: State)
    requires st.nodes != []
  {
    s.config.regretThreshold.Some? && st.iter >= s.config.regretWindow && |st.nodes[0].edges| >= 2
  }

  /** Once due, the check is due in every later turn. */
  lemma {:induction false} StaysDue(s: Setup, st: State, st': State)
    requires Follows(s, st, st') && LeadDue(s, st)
    ensures st'.nodes != [] && LeadDue(s, st')
  {
    hide Select, Expanded, Evaluated, Stops, Widened, StreakAfter;
    var w := Select(s, st.nodes, 0, |st.nodes|).value;
    var st1 := st.(streak := StreakAfter(s, st));
    var st2 := Expanded(s, st1, w.leaf).value;
    ExpandWidens(s, st1, w.leaf);
    EvaluatedShape(s, st2, w);
    RootWidens(st.nodes, st2.nodes, st'.nodes);
  }

  lemma {:induction false} RootWidens(a: seq<Node>, b: seq<Node>, c: seq<Node>)
    requires a != [] && Widened(a, b) && SearchFlow.SameShape(b, c)
    ensures c != [] && |a[0].edges| <= |c[0].edges|
  {}

  lemma {:induction false} StreakStep(s: Setup, st: State, st': State)
    requires Follows(s, st, st')
    ensures st'.streak == StreakAfter(s, st)
  {
    hide Select, Stops, StreakAfter, BackAlong, BackLeaf, Grown, PriorsOff;
  }

  lemma {:induction false} NextStreak(s: Setup, run: seq<State>, n: nat)
    requires IsRun(s, run) && 0 < n < |run|
    ensures run[n].nodes != [] && run[n - 1].nodes != []
    ensures run[n].streak == if LeadMet(s, run[n - 1]) then run[n - 1].streak + 1 else 0
    ensures run[n].streak > 0 ==> LeadDue(s, run[n])
  {
    hide Lead;
    RunCounts(s, run, n);
    RunCounts(s, run, n - 1);
    assert StepAt(s, run, n);
    StreakStep(s, run[n - 1], run[n]);
    LeadIsOfTopTwo(s, run[n - 1]);
    if n > 1 {
      NextStreak(s, run, n - 1);
    }
    if LeadDue(s, run[n - 1]) {
      StaysDue(s, run[n - 1], run[n]);
    }
  }

  /** The counter of a run is the number of turns in a row, up to now, at whose start the lead was met. */
  lemma {:induction false} StreakCounts(s: Setup, run: seq<State>, n: nat)
    requires IsRun(s, run) && n < |run|
    ensures forall i :: 0 <= i <= n ==> run[i].nodes != []
    ensures run[n].streak <= n
    ensures forall i :: n - run[n].streak <= i < n ==> LeadMet(s, run[i])
    ensures run[n].streak < n ==> !LeadMet(s, run[n - run[n].streak - 1])
  {
    hide LeadMet, LeadDue, Follows;
    RunCounts(s, run, n);
    if n > 0 {
      StreakCounts(s, run, n - 1);
      NextStreak(s, run, n);
    }
  }

  /** So the search stops on the lead exactly when it has been met in as many turns in a row as the window says,
      the present one among them. */
  lemma {:induction false} StopsOnTheLeadIff(s: Setup, run: seq<State>, n: nat)
    requires IsRun(s, run) && n < |run|
    requires n < s.config.maxIter && |run[n].nodes| < s.config.maxUniquePlans && s.config.regretWindow > 0
    ensures forall i :: 0 <= i <= n ==> run[i].nodes != []
    ensures Stops(s, run[n]) == Some(SimpleRegret) <==>
            n + 1 >= s.config.regretWindow && forall i :: n + 1 - s.config.regretWindow <= i <= n ==> LeadMet(s, run[i])
  {
    hide LeadMet, Stops, LeadDue, Follows, Turn;
    RunCounts(s, run, n);
    StreakCounts(s, run, n);
    StopsWhen(s, run[n]);
  }

  // ---- The first turn and the others ---------------------------------------------------------------------

  /** The first turn of a search that does not stop at once asks about the initial plan. It fails with the expander;
      it ends the search as exhausted, after one turn, when no proposal for the initial plan is accepted;
      otherwise it evaluates the initial plan, backs nothing but its score up, and the search goes on. */
  lemma {:induction false} FirstTurn(s: Setup)
    ensures Stops(s, Start(s)) == None <==> s.config.maxIter > 0 && s.config.maxUniquePlans > 1
    ensures s.config.maxIter > 0 && s.config.maxUniquePlans > 1 ==>
              match s.propose(s.initial, s.config.expanderK, 0)
              case None => Turn(s, Start(s)) == Failed(ExpanderRaised)
              case Some(props) =>
                if PriorsOff(props) then Turn(s, Start(s)) == Failed(ExpanderContractError)
                else if forall k :: 0 <= k < |props| ==> ApplyAction(s.initial, props[k].0, s.library).Err? then
                  Turn(s, Start(s)).Stopped? && Turn(s, Start(s)).reason == Exhausted
                  && Turn(s, Start(s)).state.iter == 1 && Turn(s, Start(s)).state.nodes[0].edges == []
                else Turn(s, Start(s)).Next? && EvaluatedOnce(s, Turn(s, Start(s)).state)
  {
    hide Populate, PriorsOff, ApplyAction, Lead, Evaluated;
    var st := Start(s);
    if s.config.maxIter > 0 && s.config.maxUniquePlans > 1 {
      assert Select(s, st.nodes, 0, |st.nodes|) == Some(Walk([], 0));
      var answer := s.propose(s.initial, s.config.expanderK, 0);
      if answer.Some? && !PriorsOff(answer.value) {
        GrewIsGrown(st.nodes, 0, answer.value, s.library);
        SomeEdgeIff(st.nodes, 0, answer.value, s.library);
        ExpandWidens(s, st, 0);
        EvaluatesTheRoot(s, Expanded(s, st, 0).value);
      }
    }
  }

  /** The initial plan was evaluated, and counted once with its score when it has one. */
  ghost predicate EvaluatedOnce(s: Setup, st: State) {
    && st.iter == 1 && st.attempts == 1 && st.nodes != []
    && match s.evaluate(s.initial, 0)
       case Score(x) => st.failures == 0 && st.backups == [Arrival(s.initial, x)] && st.scores == map[s.initial := x]
                        && st.nodes[0].visits == 1 && st.nodes[0].total == x
       case _ => st.failures == 1 && st.backups == [] && st.scores == map[]
                 && st.nodes[0].visits == 0 && st.nodes[0].total == 0.0
  }

  lemma {:induction false} EvaluatesTheRoot(s: Setup, st: State)
    requires st.nodes != [] && st.nodes[0].plan == s.initial && st.nodes[0].visits == 0 && st.nodes[0].total == 0.0
    requires st.iter == st.attempts == st.failures == 0 && st.backups == [] && st.scores == map[]
    ensures EvaluatedOnce(s, Evaluated(s, st, Walk([], 0)))
  {}

  /** A leaf stays without edges exactly when its plan accepts no proposal. */
  lemma {:induction false} SomeEdgeIff(nodes: seq<Node>, i: nat, props: seq<Proposal>, library: Option<Library>)
    requires i < |nodes| && nodes[i].edges == []
    ensures Populate(nodes, i, props, library)[i].edges == [] <==>
            forall k :: 0 <= k < |props| ==> ApplyAction(nodes[i].plan, props[k].0, library).Err?
    ensures Populate(nodes, i, props, library)[i].visits == nodes[i].visits
    ensures Populate(nodes, i, props, library)[i].total == nodes[i].total
  {
    hide ApplyAction, EdgesFrom, PopulateOne;
    var p, edges := nodes[i].plan, Populate(nodes, i, props, library)[i].edges;
    PopulateWidens(nodes, i, props, library);
    var from := LeafGetsFirstProposals(nodes, i, props, library, |props|);
    assert props[..|props|] == props;
    NoEdgeMeans(p, props, library, edges, from);
  }

  lemma {:induction false} NoEdgeMeans(p: Plan, props: seq<Proposal>, library: Option<Library>, edges: seq<Edge>,
                                       from: seq<nat>)
    requires EdgesFrom(p, props, |props|, library, edges, from)
    ensures edges == [] <==> forall k :: 0 <= k < |props| ==> ApplyAction(p, props[k].0, library).Err?
  {
    hide ApplyAction;
    if edges != [] {
      assert IsFirstOf(p, props, library, from[0], edges[0]);
    } else {
      forall k | 0 <= k < |props| ensures ApplyAction(p, props[k].0, library).Err? {
        if ApplyAction(p, props[k].0, library).Ok? {
          var j := FirstOfAction(p, props, |props|, library, edges, from, k);
        }
      }
    }
  }

  /** Later turns never end the search as exhausted: one that is not stopped beforehand and whose SELECT ends fails
      with the expander or goes on. */
  lemma {:induction false} LaterTurns(s: Setup, run: seq<State>, n: nat)
    requires IsRun(s, run) && 0 < n < |run|
    ensures run[n].nodes != []
    ensures Turn(s, run[n]).Stopped? ==> Stops(s, run[n]) == Some(Turn(s, run[n]).reason)
    ensures Turn(s, run[n]).Stopped? ==> Turn(s, run[n]).reason != Exhausted && Turn(s, run[n]).state == run[n]
  {
    hide Select, Expanded, Evaluated, Lead;
    RunCounts(s, run, n);
  }
}
