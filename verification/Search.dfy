/** The plan search (src/persistence/plan/_mcts.py:594-1133).
    Nodes and edges live in one transposition table and are named by their position in it. Each turn of
    the loop is SELECT, EXPAND, EVALUATE and BACKUP; `Turn` is that turn as a function of the state, and the
    methods of `Mcts` are proved against it. The expander and the evaluator are arbitrary functions. */
module Search {
  import opened Wrappers
  import opened Plans

  type Proposal = (Action, real)

  datatype Evaluation = EvaluatorRaised | ReturnedNone | NonFinite | Score(value: real)

  const PRIOR_TOL: real := 0.000001

  datatype Config = Config(maxIter: nat, maxUniquePlans: nat, regretThreshold: Option<real>, regretWindow: nat,
                           cPuct: real, expanderK: nat)

  /** What a search is given. Expander and evaluator may answer differently each time they are asked,
      so they are told how often they were; None is an expander that raises. `digest` orders actions
      by their hash, and `sqrt` is the square root of the selection formula. */
  datatype Setup = Setup(initial: Plan, config: Config, library: Option<Library>,
                         propose: (Plan, nat, nat) -> Option<seq<Proposal>>,
                         evaluate: (Plan, nat) -> Evaluation, digest: Action -> nat, sqrt: nat -> real)

  datatype Edge = Edge(action: Action, child: Plan, prior: real, visits: nat, total: real)

  datatype Node = Node(plan: Plan, visits: nat, total: real, edges: seq<Edge>, isTerminal: bool)

  /** One finished BACKUP: the plan it started from and the score it carried. */
  datatype Arrival = Arrival(leaf: Plan, score: real)

  /** The locals of `mcts_search`. The transposition table is kept in insertion order, as its dict
      is, and so are the edges of a node; `asked` lists the plans the expander was asked about, and
      `backups` the backups made. */
  datatype State = State(nodes: seq<Node>, proposals: map<Plan, seq<Proposal>>, scores: map<Plan, real>, iter: nat,
                         attempts: nat, failures: nat, streak: nat, asked: seq<Plan>, backups: seq<Arrival>)

  datatype TerminatedBy = MaxIter | MaxUniquePlans | SimpleRegret | Exhausted | AllEvaluationsFailed

  datatype SearchError = ExpanderRaised | ExpanderContractError

  function FreshNode(p: Plan): Node {
    Node(p, 0, 0.0, [], false)
  }

  function Start(s: Setup): State {
    State([FreshNode(s.initial)], map[], map[], 0, 0, 0, 0, [], [])
  }

  /** Where a plan is in the table; its length when the plan is not there. */
  function IndexOf(nodes: seq<Node>, p: Plan): (i: nat)
    ensures i <= |nodes| && (i < |nodes| ==> nodes[i].plan == p)
    ensures forall j :: 0 <= j < i ==> nodes[j].plan != p
    decreases |nodes|
  {
    if nodes == [] then 0
    else
      var i := IndexOf(nodes[..|nodes| - 1], p);
      if i < |nodes| - 1 || nodes[|nodes| - 1].plan == p then i else |nodes|
  }

  // ---- SELECT -----------------------------------------------------------------------------

  function Mean(visits: nat, total: real): real {
    if visits == 0 then 0.0 else total / visits as real
  }

  /** The PUCT score of an edge under a parent with `parentVisits` visits. */
  function Puct(s: Setup, parentVisits: nat, e: Edge): real {
    Mean(e.visits, e.total)
    + s.config.cPuct * e.prior * (if parentVisits > 0 then s.sqrt(parentVisits) else 1.0) / (1 + e.visits) as real
  }

  /** The best edge: the first one no other beats. */
  function BestEdge(s: Setup, node: Node, n: nat): (b: nat)
    requires 0 < n <= |node.edges|
    ensures b < n
    ensures forall j :: 0 <= j < b ==> Puct(s, node.visits, node.edges[j]) < Puct(s, node.visits, node.edges[b])
    ensures forall j :: b < j < n ==> Puct(s, node.visits, node.edges[j]) <= Puct(s, node.visits, node.edges[b])
    decreases n
  {
    if n == 1 then 0
    else
      var b := BestEdge(s, node, n - 1);
      if Puct(s, node.visits, node.edges[n - 1]) > Puct(s, node.visits, node.edges[b]) then n - 1 else b
  }

  predicate IsLeaf(node: Node) {
    node.edges == [] || node.isTerminal
  }

  /** One step of the walk: the node the edge leads to. */
  function Follow(nodes: seq<Node>, e: Edge): (i: nat)
    requires nodes != []
    ensures i < |nodes|
  {
    var i := IndexOf(nodes, e.child);
    if i < |nodes| then i else 0
  }

  datatype Hop = Hop(node: nat, edge: nat)

  datatype Walk = Walk(path: seq<Hop>, leaf: nat)

  predicate HopOk(nodes: seq<Node>, h: Hop) {
    h.node < |nodes| && h.edge < |nodes[h.node].edges|
  }

  /** The walk of SELECT from node `i`, if it ends within `steps` steps. */
  function Select(s: Setup, nodes: seq<Node>, i: nat, steps: nat): (w: Option<Walk>)
    requires i < |nodes|
    ensures w.Some? ==> w.value.leaf < |nodes| && IsLeaf(nodes[w.value.leaf])
    ensures w.Some? ==> forall k :: 0 <= k < |w.value.path| ==> HopOk(nodes, w.value.path[k])
    decreases steps
  {
    if IsLeaf(nodes[i]) then Some(Walk([], i))
    else if steps == 0 then None
    else
      var e := BestEdge(s, nodes[i], |nodes[i].edges|);
      Onward([Hop(i, e)], Select(s, nodes, Follow(nodes, nodes[i].edges[e]), steps - 1))
  }

  /** The walk that goes on with `w` after `path`. */
  function Onward(path: seq<Hop>, w: Option<Walk>): Option<Walk> {
    match w
    case None => None
    case Some(rest) => Some(Walk(path + rest.path, rest.leaf))
  }

  lemma {:induction false} OnwardFrom(path: seq<Hop>, w: Option<Walk>)
    requires path == []
    ensures Onward(path, w) == w
  {
    if w.Some? {
      assert path + w.value.path == w.value.path;
    }
  }

  lemma {:induction false} OnwardEnds(path: seq<Hop>, leaf: nat)
    ensures Onward(path, None) == None && Onward(path, Some(Walk([], leaf))) == Some(Walk(path, leaf))
  {
    assert path + [] == path;
  }

  lemma {:induction false} OnwardStep(path: seq<Hop>, h: Hop, w: Option<Walk>)
    ensures Onward(path, Onward([h], w)) == Onward(path + [h], w)
  {
    if w.Some? {
      assert path + ([h] + w.value.path) == path + [h] + w.value.path;
    }
  }

  // ---- EXPAND -------------------------------------------------------------------------------

  predicate HasAction(edges: seq<Edge>, a: Action) {
    exists j :: 0 <= j < |edges| && edges[j].action == a
  }

  /** The table with plan `p` in it (`setdefault`). */
  function WithPlan(nodes: seq<Node>, p: Plan): (r: seq<Node>)
    ensures nodes <= r
  {
    if IndexOf(nodes, p) < |nodes| then nodes else nodes + [FreshNode(p)]
  }

  /** One proposal of `_populate_children`. */
  function PopulateOne(nodes: seq<Node>, i: nat, prop: Proposal, library: Option<Library>): (r: seq<Node>)
    requires i < |nodes|
    ensures |r| >= |nodes|
  {
    match ApplyAction(nodes[i].plan, prop.0, library)
    case Err(_) => nodes
    case Ok(q) =>
      if HasAction(nodes[i].edges, prop.0) then nodes
      else
        var grown := WithPlan(nodes, q);
        grown[i := grown[i].(edges := grown[i].edges + [Edge(prop.0, q, prop.1, 0, 0.0)])]
  }

  function Populate(nodes: seq<Node>, i: nat, props: seq<Proposal>, library: Option<Library>): (r: seq<Node>)
    requires i < |nodes|
    ensures |r| >= |nodes|
    decreases |props|
  {
    if props == [] then nodes
    else PopulateOne(Populate(nodes, i, props[..|props| - 1], library), i, props[|props| - 1], library)
  }

  function SumPriors(props: seq<Proposal>): real {
    if props == [] then 0.0 else SumPriors(props[..|props| - 1]) + props[|props| - 1].1
  }

  predicate PriorsOff(props: seq<Proposal>) {
    var off := SumPriors(props) - 1.0;
    props != [] && (off >= PRIOR_TOL || -off >= PRIOR_TOL)
  }

  function MarkTerminal(nodes: seq<Node>, i: nat): (r: seq<Node>)
    requires i < |nodes|
    ensures |r| == |nodes|
  {
    nodes[i := nodes[i].(isTerminal := true)]
  }

  /** Node `i` under its proposals. */
  function Grown(nodes: seq<Node>, i: nat, props: seq<Proposal>, library: Option<Library>): (r: seq<Node>)
    requires i < |nodes|
    ensures |r| >= |nodes|
  {
    var r := Populate(nodes, i, props, library);
    if r[i].edges == [] then MarkTerminal(r, i) else r
  }

  function Expanded(s: Setup, st: State, i: nat): (r: Result<State, SearchError>)
    requires i < |st.nodes|
    ensures r.Ok? ==> |r.value.nodes| >= |st.nodes| && r.value.iter == st.iter && r.value.backups == st.backups
  {
    var node := st.nodes[i];
    if !IsLeaf(node) || node.isTerminal then Ok(st)
    else if node.plan in st.proposals then
      Ok(st.(nodes := Grown(st.nodes, i, st.proposals[node.plan], s.library)))
    else
      match s.propose(node.plan, s.config.expanderK, |st.asked|)
      case None => Err(ExpanderRaised)
      case Some(props) =>
        if PriorsOff(props) then Err(ExpanderContractError)
        else Ok(st.(nodes := Grown(st.nodes, i, props, s.library), proposals := st.proposals[node.plan := props],
                    asked := st.asked + [node.plan]))
  }

  // ---- EVALUATE and BACKUP ----------------------------------------------------------------------

  function BackHop(nodes: seq<Node>, h: Hop, score: real): (r: seq<Node>)
    ensures |r| == |nodes|
  {
    if !HopOk(nodes, h) then nodes
    else
      var n := nodes[h.node];
      var e := n.edges[h.edge];
      nodes[h.node := n.(visits := n.visits + 1, total := n.total + score,
                         edges := n.edges[h.edge := e.(visits := e.visits + 1, total := e.total + score)])]
  }

  function BackAlong(nodes: seq<Node>, path: seq<Hop>, score: real): (r: seq<Node>)
    ensures |r| == |nodes|
    decreases |path|
  {
    if path == [] then nodes else BackHop(BackAlong(nodes, path[..|path| - 1], score), path[|path| - 1], score)
  }

  function BackLeaf(nodes: seq<Node>, i: nat, score: real): (r: seq<Node>)
    requires i < |nodes|
    ensures |r| == |nodes|
  {
    nodes[i := nodes[i].(visits := nodes[i].visits + 1, total := nodes[i].total + score)]
  }

  function BackedUp(st: State, w: Walk, score: real): State
    requires w.leaf < |st.nodes|
  {
    st.(nodes := BackLeaf(BackAlong(st.nodes, w.path, score), w.leaf, score),
        backups := st.backups + [Arrival(st.nodes[w.leaf].plan, score)], iter := st.iter + 1)
  }

  /** EVALUATE and BACKUP from the leaf the walk reached. A failed evaluation backs nothing up. */
  function Evaluated(s: Setup, st: State, w: Walk): (r: State)
    requires w.leaf < |st.nodes|
    ensures r.iter == st.iter + 1
  {
    var plan := st.nodes[w.leaf].plan;
    if plan in st.scores then BackedUp(st, w, st.scores[plan])
    else
      var tried := st.(attempts := st.attempts + 1);
      match s.evaluate(plan, st.attempts)
      case Score(x) => BackedUp(tried.(scores := tried.scores[plan := x]), w, x)
      case _ => tried.(failures := tried.failures + 1, iter := tried.iter + 1)
  }

  // ---- Termination checks ---------------------------------------------------------------------------

  /** The first edge with the most visits, edge `skip` left out: what a stable descending sort by
      visits puts first. */
  function MostVisited(edges: seq<Edge>, skip: nat): (b: nat)
    requires |edges| > 1 || (|edges| == 1 && skip != 0)
    ensures b < |edges| && b != skip
    ensures forall j :: 0 <= j < |edges| && j != skip ==> edges[j].visits <= edges[b].visits
    ensures forall j :: 0 <= j < b && j != skip ==> edges[j].visits < edges[b].visits
    decreases |edges|
  {
    var last := |edges| - 1;
    if last == skip then MostVisited(edges[..last], last)
    else if last == 0 || (last == 1 && skip == 0) then last
    else
      var b := MostVisited(edges[..last], skip);
      if edges[last].visits > edges[b].visits then last else b
  }

  /** The lead of the most visited root edge over the second, in mean value. */
  function Lead(edges: seq<Edge>): real
    requires |edges| >= 2
  {
    var top := MostVisited(edges, |edges|);
    var second := MostVisited(edges, top);
    Mean(edges[top].visits, edges[top].total) - Mean(edges[second].visits, edges[second].total)
  }

  /** The consecutive-window counter after the regret check of one turn. */
  function StreakAfter(s: Setup, st: State): nat
    requires st.nodes != []
  {
    if s.config.regretThreshold.Some? && st.iter >= s.config.regretWindow && |st.nodes[0].edges| >= 2 then
      if Lead(st.nodes[0].edges) >= s.config.regretThreshold.value then st.streak + 1 else 0
    else st.streak
  }

  function Stops(s: Setup, st: State): Option<TerminatedBy>
    requires st.nodes != []
  {
    if st.iter >= s.config.maxIter then Some(MaxIter)
    else if |st.nodes| >= s.config.maxUniquePlans then Some(MaxUniquePlans)
    else if StreakAfter(s, st) > st.streak && StreakAfter(s, st) >= s.config.regretWindow then Some(SimpleRegret)
    else if st.attempts > 0 && st.attempts == st.failures then Some(AllEvaluationsFailed)
    else None
  }

  // ---- One turn of the loop ---------------------------------------------------------------------------

  datatype Turned = Next(state: State) | Stopped(state: State, reason: TerminatedBy) | Failed(error: SearchError)
                  | Hangs

  /** From the selected leaf on. */
  function TurnAt(s: Setup, st: State, w: Walk): (r: Turned)
    requires w.leaf < |st.nodes|
    ensures r.Next? ==> r.state.iter == st.iter + 1 && |r.state.nodes| >= |st.nodes|
    ensures !r.Hangs?
  {
    match Expanded(s, st, w.leaf)
    case Err(e) => Failed(e)
    case Ok(st') =>
      if st.iter == 0 && w.leaf == 0 && st'.nodes[0].isTerminal && st'.nodes[0].edges == [] then
        Stopped(st'.(iter := 1), Exhausted)
      else Next(Evaluated(s, st', w))
  }

  /** One turn of the loop of `mcts_search`. SELECT visits a table of n nodes; a walk that has not
      ended after n steps never does (see `LongWalksNeverEnd`). */
  function Turn(s: Setup, st: State): (r: Turned)
    requires st.nodes != []
    ensures r.Next? ==> r.state.iter == st.iter + 1 <= s.config.maxIter && r.state.nodes != []
    ensures r.Stopped? ==> r.state.nodes != []
  {
    match Stops(s, st)
    case Some(reason) => Stopped(st, reason)
    case None =>
      match Select(s, st.nodes, 0, |st.nodes|)
      case None => Hangs
      case Some(w) => TurnAt(s, st.(streak := StreakAfter(s, st)), w)
  }

  /** The loop from `st` to its end. */
  function Until(s: Setup, st: State): (r: Turned)
    requires st.nodes != []
    ensures !r.Next? && (r.Stopped? ==> r.state.nodes != [])
    decreases s.config.maxIter - st.iter
  {
    match Turn(s, st)
    case Next(st') => Until(s, st')
    case r => r
  }

  // ---- The result ---------------------------------------------------------------------------------------

  /** `a` comes before `b` in the choice of the winner: more visits, then a higher mean, then the
      lower action hash. */
  predicate Beats(s: Setup, a: Edge, b: Edge) {
    var qa, qb := Mean(a.visits, a.total), Mean(b.visits, b.total);
    || a.visits > b.visits
    || (a.visits == b.visits && (qa > qb || (qa == qb && s.digest(a.action) < s.digest(b.action))))
  }

  /** `_pick_winner_edge`: the first edge that no later one beats. */
  function Winner(s: Setup, edges: seq<Edge>): (b: nat)
    requires edges != []
    ensures b < |edges|
    decreases |edges|
  {
    var last := |edges| - 1;
    if last == 0 then 0
    else
      var b := Winner(s, edges[..last]);
      if Beats(s, edges[last], edges[b]) then last else b
  }

  /** Edge `b` is chosen at least as soon as edge `e`. */
  predicate Outranks(s: Setup, b: Edge, e: Edge) {
    && e.visits <= b.visits
    && (e.visits == b.visits ==> Mean(e.visits, e.total) <= Mean(b.visits, b.total))
    && (e.visits == b.visits && Mean(e.visits, e.total) == Mean(b.visits, b.total) ==>
          s.digest(b.action) <= s.digest(e.action))
  }

  /** The winner is a most visited edge; among these one with the highest mean; among these the one with the lowest
      action hash; and no edge before it ties with it in all three. */
  lemma {:induction false} WinnerOutranks(s: Setup, edges: seq<Edge>)
    requires edges != []
    ensures var b := Winner(s, edges);
            && (forall j :: 0 <= j < |edges| ==> Outranks(s, edges[b], edges[j]))
            && (forall j :: 0 <= j < b ==> !Outranks(s, edges[j], edges[b]))
    decreases |edges|
  {
    hide Mean;
    var last := |edges| - 1;
    if last > 0 {
      WinnerOutranks(s, edges[..last]);
    }
  }

  datatype SearchResult = SearchResult(winner: Plan, iterCount: nat, uniquePlans: nat, reason: TerminatedBy,
                                       rootQ: real)

  function ResultOf(s: Setup, st: State, reason: TerminatedBy): SearchResult
    requires st.nodes != []
  {
    var edges := st.nodes[0].edges;
    if reason.AllEvaluationsFailed? || edges == [] then SearchResult(s.initial, st.iter, |st.nodes|, reason, 0.0)
    else
      var e := edges[Winner(s, edges)];
      SearchResult(e.child, st.iter, |st.nodes|, reason, Mean(e.visits, e.total))
  }

  /** What a search that ended in `st` returns: the plan under a most visited root edge, ties going to the higher
      mean and then to the lower action hash, with that edge's mean; or the initial plan, when the root has no
      edge or every evaluation failed. */
  ghost predicate Chosen(s: Setup, st: State, reason: TerminatedBy, r: SearchResult)
    requires st.nodes != []
  {
    var edges := st.nodes[0].edges;
    && r.iterCount == st.iter && r.uniquePlans == |st.nodes| && r.reason == reason
    && if reason == AllEvaluationsFailed || edges == [] then r.winner == s.initial && r.rootQ == 0.0
       else exists b :: 0 <= b < |edges| && r.winner == edges[b].child
                        && r.rootQ == Mean(edges[b].visits, edges[b].total)
                        && forall j :: 0 <= j < |edges| ==> Outranks(s, edges[b], edges[j])
  }

  lemma {:induction false} ResultIsChosen(s: Setup, st: State, reason: TerminatedBy)
    requires st.nodes != []
    ensures Chosen(s, st, reason, ResultOf(s, st, reason))
  {
    hide Mean, Winner, Outranks;
    var edges := st.nodes[0].edges;
    if !reason.AllEvaluationsFailed? && edges != [] {
      WinnerOutranks(s, edges);
    }
  }

  // ---- What EXPAND leaves alone -----------------------------------------------------------------------

  /** A new edge, or a node as it enters the table: nothing has passed through it. */
  predicate Unvisited(edges: seq<Edge>, from: nat) {
    forall j :: from <= j < |edges| ==> edges[j].visits == 0 && edges[j].total == 0.0
  }

  /** From `a` to `b` nodes and edges were only added, and none of the added ones was visited. */
  ghost predicate Widened(a: seq<Node>, b: seq<Node>) {
    && |a| <= |b|
    && (forall i :: 0 <= i < |a| ==>
          && b[i].plan == a[i].plan && b[i].visits == a[i].visits && b[i].total == a[i].total
          && a[i].edges <= b[i].edges && Unvisited(b[i].edges, |a[i].edges|))
    && (forall i :: |a| <= i < |b| ==> b[i].visits == 0 && b[i].total == 0.0 && Unvisited(b[i].edges, 0))
  }

  lemma {:induction false} WidenedTrans(a: seq<Node>, b: seq<Node>, c: seq<Node>)
    requires Widened(a, b) && Widened(b, c)
    ensures Widened(a, c)
  {
    forall i | 0 <= i < |a|
      ensures a[i].edges <= c[i].edges && Unvisited(c[i].edges, |a[i].edges|)
    {
      var ea, eb, ec := a[i].edges, b[i].edges, c[i].edges;
      forall j | |ea| <= j < |ec| ensures ec[j].visits == 0 && ec[j].total == 0.0 {
        assert j < |eb| ==> ec[j] == eb[j];
      }
    }
    forall i | |a| <= i < |c| ensures c[i].visits == 0 && c[i].total == 0.0 && Unvisited(c[i].edges, 0) {
      if i < |b| {
        forall j | 0 <= j < |c[i].edges| ensures c[i].edges[j].visits == 0 && c[i].edges[j].total == 0.0 {
          assert j < |b[i].edges| ==> c[i].edges[j] == b[i].edges[j];
        }
      }
    }
  }

  lemma {:induction false} PopulateOneWidens(nodes: seq<Node>, i: nat, prop: Proposal, library: Option<Library>)
    requires i < |nodes|
    ensures Widened(nodes, PopulateOne(nodes, i, prop, library))
  {
    hide ApplyAction, HasAction, IndexOf;
  }

  lemma {:induction false} PopulateWidens(nodes: seq<Node>, i: nat, props: seq<Proposal>, library: Option<Library>)
    requires i < |nodes|
    ensures Widened(nodes, Populate(nodes, i, props, library))
    decreases |props|
  {
    hide PopulateOne, Unvisited;
    if props != [] {
      var init := Populate(nodes, i, props[..|props| - 1], library);
      PopulateWidens(nodes, i, props[..|props| - 1], library);
      PopulateOneWidens(init, i, props[|props| - 1], library);
      WidenedTrans(nodes, init, Populate(nodes, i, props, library));
    } else {
      Same(nodes);
    }
  }

  lemma {:induction false} Same(nodes: seq<Node>)
    ensures Widened(nodes, nodes)
  {}

  /** EXPAND adds nodes and edges nobody has visited, and nothing else changes that BACKUP counts. */
  lemma {:induction false} ExpandWidens(s: Setup, st: State, i: nat)
    requires i < |st.nodes| && Expanded(s, st, i).Ok?
    ensures Widened(st.nodes, Expanded(s, st, i).value.nodes)
  {
    hide Populate, Widened, PriorsOff;
    Same(st.nodes);
    var plan := st.nodes[i].plan;
    if plan in st.proposals {
      GrownWidens(st.nodes, i, st.proposals[plan], s.library);
    } else if s.propose(plan, s.config.expanderK, |st.asked|).Some? {
      GrownWidens(st.nodes, i, s.propose(plan, s.config.expanderK, |st.asked|).value, s.library);
    }
  }

  lemma {:induction false} GrownWidens(nodes: seq<Node>, i: nat, props: seq<Proposal>, library: Option<Library>)
    requires i < |nodes|
    ensures Widened(nodes, Grown(nodes, i, props, library))
  {
    hide Populate;
    PopulateWidens(nodes, i, props, library);
  }

  /** The walk still fits a widened table. */
  lemma {:induction false} HopsStayOk(a: seq<Node>, b: seq<Node>, path: seq<Hop>)
    requires Widened(a, b) && forall k :: 0 <= k < |path| ==> HopOk(a, path[k])
    ensures forall k :: 0 <= k < |path| ==> HopOk(b, path[k])
  {
    forall k | 0 <= k < |path| ensures HopOk(b, path[k]) {
      assert HopOk(a, path[k]) && a[path[k].node].edges <= b[path[k].node].edges;
    }
  }

  lemma {:induction false} HopOkAfter(nodes: seq<Node>, path: seq<Hop>, h: Hop, score: real)
    requires forall k :: 0 <= k < |path| ==> HopOk(nodes, path[k])
    ensures forall k :: 0 <= k < |path| ==> HopOk(BackHop(nodes, h, score), path[k])
  {
    forall k | 0 <= k < |path| ensures HopOk(BackHop(nodes, h, score), path[k]) {
      assert HopOk(nodes, path[k]);
    }
  }

  // ---- The search itself ----------------------------------------------------------------------------------

  datatype Ended = Returned(result: SearchResult) | Raised(error: SearchError) | NeverReturns

  class Mcts {
    const setup: Setup
    var nodes: seq<Node>
    var proposals: map<Plan, seq<Proposal>>
    var scores: map<Plan, real>
    var iter: nat
    var attempts: nat
    var failures: nat
    var streak: nat
    var asked: seq<Plan>
    var backups: seq<Arrival>

    constructor (setup: Setup)
      ensures this.setup == setup && Snapshot() == Start(setup)
    {
      this.setup := setup;
      nodes, proposals, scores := [FreshNode(setup.initial)], map[], map[];
      iter, attempts, failures, streak, asked, backups := 0, 0, 0, 0, [], [];
    }

    ghost function Snapshot(): State
      reads this
    {
      State(nodes, proposals, scores, iter, attempts, failures, streak, asked, backups)
    }

    /** `_select_child`. */
    method SelectChild(node: Node) returns (best: nat)
      requires node.edges != []
      ensures best == BestEdge(setup, node, |node.edges|)
    {
      hide Puct;
      best := 0;
      for i := 1 to |node.edges|
        invariant best == BestEdge(setup, node, i)
      {
        if Puct(setup, node.visits, node.edges[i]) > Puct(setup, node.visits, node.edges[best]) {
          best := i;
        }
      }
    }

    /** SELECT: from the root to a leaf. */
    method SelectLeaf() returns (w: Option<Walk>)
      requires nodes != []
      ensures w == Select(setup, nodes, 0, |nodes|)
    {
      hide BestEdge, Follow, Onward;
      var path: seq<Hop>, node: nat, steps: nat := [], 0, |nodes|;
      OnwardFrom([], Select(setup, nodes, 0, |nodes|));
      while nodes[node].edges != [] && !nodes[node].isTerminal
        invariant node < |nodes|
        invariant Select(setup, nodes, 0, |nodes|) == Onward(path, Select(setup, nodes, node, steps))
        decreases steps
      {
        if steps == 0 {
          OnwardEnds(path, node);
          return None;
        }
        var edge := SelectChild(nodes[node]);
        var next := Follow(nodes, nodes[node].edges[edge]);
        OnwardStep(path, Hop(node, edge), Select(setup, nodes, next, steps - 1));
        path := path + [Hop(node, edge)];
        node, steps := next, steps - 1;
      }
      OnwardEnds(path, node);
      w := Some(Walk(path, node));
    }

    /** `_populate_children`. */
    method PopulateChildren(i: nat, props: seq<Proposal>)
      requires i < |nodes|
      modifies this`nodes
      ensures nodes == Populate(old(nodes), i, props, setup.library)
    {
      hide HasAction;
      for n := 0 to |props|
        invariant nodes == Populate(old(nodes), i, props[..n], setup.library)
      {
        assert props[..n + 1][..n] == props[..n];
        var action, prior := props[n].0, props[n].1;
        var r := ApplyAction(nodes[i].plan, action, setup.library);
        if r.Err? || HasAction(nodes[i].edges, action) {
          continue;
        }
        if IndexOf(nodes, r.value) == |nodes| {
          nodes := nodes + [FreshNode(r.value)];
        }
        nodes := nodes[i := nodes[i].(edges := nodes[i].edges + [Edge(action, r.value, prior, 0, 0.0)])];
      }
      assert props[..|props|] == props;
    }

    /** EXPAND: asks the expander unless the node is terminal, has children or was asked about before. */
    method Expand(i: nat) returns (error: Option<SearchError>)
      requires i < |nodes|
      modifies this`nodes, this`proposals, this`asked
      ensures match Expanded(setup, old(Snapshot()), i)
              case Ok(st) => error.None? && Snapshot() == st
              case Err(e) => error == Some(e)
    {
      hide Populate, SumPriors;
      var node := nodes[i];
      if node.isTerminal || node.edges != [] {
        return None;
      }
      var props: seq<Proposal> := [];
      if node.plan in proposals {
        props := proposals[node.plan];
      } else {
        var answer := setup.propose(node.plan, setup.config.expanderK, |asked|);
        if answer.None? {
          return Some(ExpanderRaised);
        }
        props := answer.value;
        if PriorsOff(props) {
          return Some(ExpanderContractError);
        }
        proposals := proposals[node.plan := props];
        asked := asked + [node.plan];
      }
      PopulateChildren(i, props);
      if nodes[i].edges == [] {
        nodes := nodes[i := nodes[i].(isTerminal := true)];
      }
      error := None;
    }

    /** BACKUP at one node of the path and the edge taken there. */
    method Count(h: Hop, score: real)
      requires HopOk(nodes, h)
      modifies this`nodes
      ensures nodes == BackHop(old(nodes), h, score)
    {
      var n := nodes[h.node];
      var e := n.edges[h.edge];
      nodes := nodes[h.node := n.(visits := n.visits + 1, total := n.total + score,
                                  edges := n.edges[h.edge := e.(visits := e.visits + 1, total := e.total + score)])];
    }

    /** BACKUP along the path, then at the leaf. */
    method Backup(w: Walk, score: real)
      requires w.leaf < |nodes| && forall k :: 0 <= k < |w.path| ==> HopOk(nodes, w.path[k])
      modifies this`nodes, this`backups, this`iter
      ensures Snapshot() == BackedUp(old(Snapshot()), w, score)
    {
      hide HopOk, BackHop;
      var plan := nodes[w.leaf].plan;
      for k := 0 to |w.path|
        invariant nodes == BackAlong(old(nodes), w.path[..k], score) && backups == old(backups) && iter == old(iter)
        invariant forall j :: 0 <= j < |w.path| ==> HopOk(nodes, w.path[j])
      {
        assert w.path[..k + 1][..k] == w.path[..k];
        HopOkAfter(nodes, w.path, w.path[k], score);
        Count(w.path[k], score);
      }
      assert w.path[..|w.path|] == w.path;
      backups := backups + [Arrival(plan, score)];
      var leaf := nodes[w.leaf];
      nodes := nodes[w.leaf := leaf.(visits := leaf.visits + 1, total := leaf.total + score)];
      iter := iter + 1;
    }

    /** EVALUATE the leaf, from the cache or the evaluator, and back its score up. */
    method Evaluate(w: Walk)
      requires w.leaf < |nodes| && forall k :: 0 <= k < |w.path| ==> HopOk(nodes, w.path[k])
      modifies this
      ensures Snapshot() == Evaluated(setup, old(Snapshot()), w)
    {
      hide BackedUp;
      var plan := nodes[w.leaf].plan;
      if plan in scores {
        Backup(w, scores[plan]);
        return;
      }
      attempts := attempts + 1;
      match setup.evaluate(plan, attempts - 1) {
        case Score(x) =>
          scores := scores[plan := x];
          Backup(w, x);
        case _ =>
          failures := failures + 1;
          iter := iter + 1;
      }
    }

    /** The check on the lead of the best root edge; true ends the search. */
    method RegretReached() returns (reached: bool)
      requires nodes != []
      modifies this`streak
      ensures streak == StreakAfter(setup, old(Snapshot()))
      ensures reached <==> streak > old(streak) && streak >= setup.config.regretWindow
    {
      hide Lead;
      reached := false;
      if setup.config.regretThreshold.Some? && iter >= setup.config.regretWindow && |nodes[0].edges| >= 2 {
        if Lead(nodes[0].edges) >= setup.config.regretThreshold.value {
          streak := streak + 1;
          reached := streak >= setup.config.regretWindow;
        } else {
          streak := 0;
        }
      }
    }

    /** `_pick_winner_edge`. */
    method PickWinner(edges: seq<Edge>) returns (best: nat)
      requires edges != []
      ensures best == Winner(setup, edges)
    {
      hide Beats, Mean;
      best := 0;
      for j := 1 to |edges|
        invariant best == Winner(setup, edges[..j])
      {
        assert edges[..j + 1][..j] == edges[..j];
        if Beats(setup, edges[j], edges[best]) {
          best := j;
        }
      }
      assert edges[..|edges|] == edges;
    }

    /** The winner and the counts, from the table. */
    method Conclude(reason: TerminatedBy) returns (r: SearchResult)
      requires nodes != []
      ensures r == ResultOf(setup, Snapshot(), reason)
    {
      hide Winner, Mean;
      var edges := nodes[0].edges;
      if reason.AllEvaluationsFailed? || edges == [] {
        return SearchResult(setup.initial, iter, |nodes|, reason, 0.0);
      }
      var best := PickWinner(edges);
      r := SearchResult(edges[best].child, iter, |nodes|, reason, Mean(edges[best].visits, edges[best].total));
    }

    /** One turn of the loop; None goes on to the next. */
    method TakeTurn() returns (end: Option<Ended>)
      requires nodes != []
      modifies this
      ensures match Turn(setup, old(Snapshot()))
              case Next(st) => end.None? && Snapshot() == st
              case Stopped(st, reason) => end == Some(Returned(ResultOf(setup, st, reason)))
              case Failed(e) => end == Some(Raised(e))
              case Hangs => end == Some(NeverReturns)
    {
      hide Select, Expanded, Evaluated, Winner, StreakAfter, Widened, HopOk;
      ghost var st := Snapshot();
      var reason: Option<TerminatedBy> := None;
      if iter >= setup.config.maxIter {
        reason := Some(MaxIter);
      } else if |nodes| >= setup.config.maxUniquePlans {
        reason := Some(MaxUniquePlans);
      } else {
        var reached := RegretReached();
        if reached {
          reason := Some(SimpleRegret);
        } else if attempts > 0 && attempts == failures {
          reason := Some(AllEvaluationsFailed);
        }
      }
      assert reason == Stops(setup, st);
      if reason.Some? {
        var result := Conclude(reason.value);
        return Some(Returned(result));
      }
      var w := SelectLeaf();
      if w.None? {
        return Some(NeverReturns);
      }
      ghost var before := Snapshot();
      var error := Expand(w.value.leaf);
      if error.Some? {
        return Some(Raised(error.value));
      }
      ExpandWidens(setup, before, w.value.leaf);
      HopsStayOk(before.nodes, nodes, w.value.path);
      if iter == 0 && w.value.leaf == 0 && nodes[0].isTerminal && nodes[0].edges == [] {
        iter := iter + 1;
        var result := Conclude(Exhausted);
        return Some(Returned(result));
      }
      Evaluate(w.value);
      end := None;
    }
  }

  function EndOf(s: Setup, t: Turned): Ended
    requires !t.Next? && (t.Stopped? ==> t.state.nodes != [])
  {
    match t
    case Stopped(st, reason) => Returned(ResultOf(s, st, reason))
    case Failed(e) => Raised(e)
    case Hangs => NeverReturns
  }

  /** `mcts_search`. */
  method MctsSearch(s: Setup) returns (r: Ended)
    ensures r == EndOf(s, Until(s, Start(s)))
    ensures r.Returned? ==> Until(s, Start(s)).Stopped?
                            && Chosen(s, Until(s, Start(s)).state, Until(s, Start(s)).reason, r.result)
  {
    hide Turn, ResultOf, Chosen;
    var m := new Mcts(s);
    while true
      invariant fresh(m) && m.setup == s && m.nodes != []
      invariant Until(s, m.Snapshot()) == Until(s, Start(s))
      decreases s.config.maxIter - m.iter
    {
      var end := m.TakeTurn();
      if end.Some? {
        ghost var last := Until(s, Start(s));
        if last.Stopped? {
          ResultIsChosen(s, last.state, last.reason);
        }
        return end.value;
      }
    }
  }
}
