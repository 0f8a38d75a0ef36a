/** Conservation in the search graph.
    BACKUP counts one visit and one score at every node and edge of the path SELECT took. A backup under
    way sits at one node: counting it there moves it along the edge to the next node, until it ends at
    its leaf. So at every node what came in over edges (and, at the root, from outside) is what went out
    over edges plus what ended there. The lemmas here follow one backup hop by hop, show that
    expanding a node leaves all balances alone, and put both together for one turn (`Sound`). */
module SearchFlow {
  import opened Wrappers
  import opened Plans
  import opened Search

  // ---- The table ----------------------------------------------------------------------------

  ghost predicate Distinct(nodes: seq<Node>) {
    forall i, j :: 0 <= i < j < |nodes| ==> nodes[i].plan != nodes[j].plan
  }

  predicate InTable(nodes: seq<Node>, p: Plan) {
    exists i :: 0 <= i < |nodes| && nodes[i].plan == p
  }

  ghost predicate EdgesIn(nodes: seq<Node>, edges: seq<Edge>) {
    forall j :: 0 <= j < |edges| ==> InTable(nodes, edges[j].child)
  }

  /** The transposition table: one node a plan, and every edge leads to a node of the table. */
  ghost predicate Table(nodes: seq<Node>) {
    nodes != [] && Distinct(nodes) && forall i :: 0 <= i < |nodes| ==> EdgesIn(nodes, nodes[i].edges)
  }

  /** Where a hop leads. */
  function Target(nodes: seq<Node>, h: Hop): (i: nat)
    requires HopOk(nodes, h)
    ensures i < |nodes|
  {
    Follow(nodes, nodes[h.node].edges[h.edge])
  }

  lemma {:induction false} FollowIs(nodes: seq<Node>, e: Edge)
    requires nodes != [] && InTable(nodes, e.child)
    ensures nodes[Follow(nodes, e)].plan == e.child
  {
    var i :| 0 <= i < |nodes| && nodes[i].plan == e.child;
    assert IndexOf(nodes, e.child) <= i;
  }

  /** The path starts at node `start`, each hop leaves the node the one before it led to, and the
      last one leads to `leaf`. */
  ghost predicate Linked(nodes: seq<Node>, start: nat, path: seq<Hop>, leaf: nat) {
    && (forall k :: 0 <= k < |path| ==> HopOk(nodes, path[k]))
    && (forall k :: 0 < k < |path| ==> path[k].node == Target(nodes, path[k - 1]))
    && if path == [] then leaf == start
       else path[0].node == start && leaf == Target(nodes, path[|path| - 1])
  }

  lemma {:induction false} SelectIsLinked(s: Setup, nodes: seq<Node>, i: nat, steps: nat)
    requires i < |nodes|
    ensures var w := Select(s, nodes, i, steps); w.Some? ==> Linked(nodes, i, w.value.path, w.value.leaf)
    decreases steps
  {
    hide Follow, IndexOf;
    if !IsLeaf(nodes[i]) && steps > 0 {
      var e := BestEdge(s, nodes[i], |nodes[i].edges|);
      var next := Follow(nodes, nodes[i].edges[e]);
      SelectIsLinked(s, nodes, next, steps - 1);
      var w := Select(s, nodes, next, steps - 1);
      if w.Some? {
        LinkedCons(nodes, Hop(i, e), w.value.path, w.value.leaf);
      }
    }
  }

  lemma {:induction false} LinkedCons(nodes: seq<Node>, h: Hop, path: seq<Hop>, leaf: nat)
    requires HopOk(nodes, h) && Linked(nodes, Target(nodes, h), path, leaf)
    ensures Linked(nodes, h.node, [h] + path, leaf)
  {
    hide Target, HopOk;
    var all := [h] + path;
    forall k | 0 <= k < |all| ensures HopOk(nodes, all[k]) {
      assert k > 0 ==> all[k] == path[k - 1];
    }
    forall k | 0 < k < |all| ensures all[k].node == Target(nodes, all[k - 1]) {
      assert all[k] == path[k - 1];
    }
  }

  lemma {:induction false} LinkedInit(nodes: seq<Node>, start: nat, path: seq<Hop>, leaf: nat)
    requires Linked(nodes, start, path, leaf) && path != []
    ensures var last := path[|path| - 1]; Linked(nodes, start, path[..|path| - 1], last.node)
  {
    hide Target, HopOk;
  }

  // ---- Flows -----------------------------------------------------------------------------------

  /** What is counted: visits, or the value of the scores that came with them. */
  datatype Measure = Visits | Totals

  function Amount(score: real, m: Measure): real {
    if m.Visits? then 1.0 else score
  }

  function EdgeFlow(e: Edge, m: Measure): real {
    if m.Visits? then e.visits as real else e.total
  }

  function NodeFlow(n: Node, m: Measure): real {
    if m.Visits? then n.visits as real else n.total
  }

  /** Over the edges. */
  function OutFlow(edges: seq<Edge>, m: Measure): real
    decreases |edges|
  {
    if edges == [] then 0.0 else OutFlow(edges[..|edges| - 1], m) + EdgeFlow(edges[|edges| - 1], m)
  }

  /** Over the edges that lead to `p`. */
  function FlowTo(edges: seq<Edge>, p: Plan, m: Measure): real
    decreases |edges|
  {
    if edges == [] then 0.0
    else
      var e := edges[|edges| - 1];
      FlowTo(edges[..|edges| - 1], p, m) + if e.child == p then EdgeFlow(e, m) else 0.0
  }

  /** Over all edges of the table that lead to `p`. */
  function InFlow(nodes: seq<Node>, p: Plan, m: Measure): real
    decreases |nodes|
  {
    if nodes == [] then 0.0 else InFlow(nodes[..|nodes| - 1], p, m) + FlowTo(nodes[|nodes| - 1].edges, p, m)
  }

  /** Over the backups that started at `p`. */
  function EndedFlow(backups: seq<Arrival>, p: Plan, m: Measure): real
    decreases |backups|
  {
    if backups == [] then 0.0
    else
      var b := backups[|backups| - 1];
      EndedFlow(backups[..|backups| - 1], p, m) + if b.leaf == p then Amount(b.score, m) else 0.0
  }

  /** Over all backups. */
  function AllFlow(backups: seq<Arrival>, m: Measure): real
    decreases |backups|
  {
    if backups == [] then 0.0 else AllFlow(backups[..|backups| - 1], m) + Amount(backups[|backups| - 1].score, m)
  }

  /** What a node counts is what left it over its edges plus what ended there. */
  ghost predicate Outward(nodes: seq<Node>, backups: seq<Arrival>, m: Measure) {
    forall i :: 0 <= i < |nodes| ==>
      NodeFlow(nodes[i], m) == OutFlow(nodes[i].edges, m) + EndedFlow(backups, nodes[i].plan, m)
  }

  /** What a node counts is what came in over all edges that lead to it; the root also counts every
      backup. */
  ghost predicate Inward(nodes: seq<Node>, backups: seq<Arrival>, m: Measure) {
    forall i :: 0 <= i < |nodes| ==>
      NodeFlow(nodes[i], m) == InFlow(nodes, nodes[i].plan, m) + if i == 0 then AllFlow(backups, m) else 0.0
  }

  /** The same with one more backup under way, which has been counted up to but not at node `at`. */
  ghost predicate UnderWay(nodes: seq<Node>, backups: seq<Arrival>, at: nat, amount: real, m: Measure) {
    forall i :: 0 <= i < |nodes| ==>
      NodeFlow(nodes[i], m) + (if i == at then amount else 0.0)
      == InFlow(nodes, nodes[i].plan, m) + if i == 0 then AllFlow(backups, m) + amount else 0.0
  }

  lemma {:induction false} OutFlowSet(edges: seq<Edge>, j: nat, e: Edge, m: Measure)
    requires j < |edges|
    ensures OutFlow(edges[j := e], m) == OutFlow(edges, m) - EdgeFlow(edges[j], m) + EdgeFlow(e, m)
    decreases |edges|
  {
    hide EdgeFlow;
    var last := |edges| - 1;
    if j < last {
      OutFlowSet(edges[..last], j, e, m);
      assert edges[j := e][..last] == edges[..last][j := e];
    } else {
      assert edges[j := e][..last] == edges[..last];
    }
  }

  lemma {:induction false} FlowToSet(edges: seq<Edge>, j: nat, e: Edge, p: Plan, m: Measure)
    requires j < |edges| && e.child == edges[j].child
    ensures FlowTo(edges[j := e], p, m)
         == FlowTo(edges, p, m) + if e.child == p then EdgeFlow(e, m) - EdgeFlow(edges[j], m) else 0.0
    decreases |edges|
  {
    hide EdgeFlow;
    var last := |edges| - 1;
    if j < last {
      FlowToSet(edges[..last], j, e, p, m);
      assert edges[j := e][..last] == edges[..last][j := e];
    } else {
      assert edges[j := e][..last] == edges[..last];
    }
  }

  lemma {:induction false} InFlowSet(nodes: seq<Node>, i: nat, n: Node, p: Plan, m: Measure)
    requires i < |nodes|
    ensures InFlow(nodes[i := n], p, m) == InFlow(nodes, p, m) - FlowTo(nodes[i].edges, p, m) + FlowTo(n.edges, p, m)
    decreases |nodes|
  {
    hide FlowTo;
    var last := |nodes| - 1;
    if i < last {
      InFlowSet(nodes[..last], i, n, p, m);
      assert nodes[i := n][..last] == nodes[..last][i := n];
    } else {
      assert nodes[i := n][..last] == nodes[..last];
    }
  }

  /** One hop of BACKUP moves the backup from the node it leaves to the node the edge leads to. */
  lemma {:induction false} HopMoves(nodes: seq<Node>, backups: seq<Arrival>, h: Hop, score: real, m: Measure)
    requires Table(nodes) && HopOk(nodes, h)
    requires Outward(nodes, backups, m) && UnderWay(nodes, backups, h.node, Amount(score, m), m)
    ensures Outward(BackHop(nodes, h, score), backups, m)
    ensures UnderWay(BackHop(nodes, h, score), backups, Target(nodes, h), Amount(score, m), m)
  {
    hide OutFlow, FlowTo, InFlow, EndedFlow, AllFlow, IndexOf;
    var after, n := BackHop(nodes, h, score), nodes[h.node];
    var e := n.edges[h.edge];
    var e' := e.(visits := e.visits + 1, total := e.total + score);
    OutFlowSet(n.edges, h.edge, e', m);
    TargetIs(nodes, h);
    forall i | 0 <= i < |after|
      ensures NodeFlow(after[i], m) + (if i == Target(nodes, h) then Amount(score, m) else 0.0)
           == InFlow(after, after[i].plan, m) + if i == 0 then AllFlow(backups, m) + Amount(score, m) else 0.0
    {
      FlowToSet(n.edges, h.edge, e', nodes[i].plan, m);
      InFlowSet(nodes, h.node, after[h.node], nodes[i].plan, m);
      assert e.child == nodes[i].plan <==> i == Target(nodes, h);
    }
  }

  lemma {:induction false} TargetIs(nodes: seq<Node>, h: Hop)
    requires Table(nodes) && HopOk(nodes, h)
    ensures forall i :: 0 <= i < |nodes| ==>
              (nodes[h.node].edges[h.edge].child == nodes[i].plan <==> i == Target(nodes, h))
  {
    hide Follow, IndexOf;
    assert EdgesIn(nodes, nodes[h.node].edges);
    FollowIs(nodes, nodes[h.node].edges[h.edge]);
  }

  // ---- Along the path --------------------------------------------------------------------------

  /** Two tables that differ at most in their counters. */
  ghost predicate SameShape(a: seq<Node>, b: seq<Node>) {
    && |a| == |b|
    && forall i :: 0 <= i < |a| ==> a[i].plan == b[i].plan && SameChildren(a[i].edges, b[i].edges)
  }

  ghost predicate SameChildren(a: seq<Edge>, b: seq<Edge>) {
    |a| == |b| && forall j :: 0 <= j < |a| ==> a[j].child == b[j].child && a[j].action == b[j].action
  }

  lemma {:induction false} SamePlansSameIndex(a: seq<Node>, b: seq<Node>, p: Plan)
    requires |a| <= |b| && forall i :: 0 <= i < |a| ==> a[i].plan == b[i].plan
    requires |a| == |b| || InTable(a, p)
    ensures IndexOf(a, p) == IndexOf(b, p)
  {
    if IndexOf(a, p) == |a| {
      assert forall i :: 0 <= i < |a| ==> a[i].plan != p;
    } else {
      assert a[IndexOf(a, p)].plan == b[IndexOf(a, p)].plan == p;
    }
  }

  lemma {:induction false} BackHopShape(nodes: seq<Node>, h: Hop, score: real)
    ensures SameShape(nodes, BackHop(nodes, h, score))
  {}

  lemma {:induction false} BackAlongShape(nodes: seq<Node>, path: seq<Hop>, score: real)
    ensures SameShape(nodes, BackAlong(nodes, path, score))
    decreases |path|
  {
    hide BackHop;
    if path != [] {
      BackAlongShape(nodes, path[..|path| - 1], score);
      BackHopShape(BackAlong(nodes, path[..|path| - 1], score), path[|path| - 1], score);
    }
  }

  lemma {:induction false} ShapeKeepsTable(a: seq<Node>, b: seq<Node>)
    requires SameShape(a, b) && Table(a)
    ensures Table(b)
  {
    hide InTable;
    forall i | 0 <= i < |b| ensures EdgesIn(b, b[i].edges) {
      assert EdgesIn(a, a[i].edges) && SameChildren(a[i].edges, b[i].edges);
      forall j | 0 <= j < |b[i].edges| ensures InTable(b, b[i].edges[j].child) {
        InTableStays(a, b, a[i].edges[j].child);
      }
    }
  }

  lemma {:induction false} InTableStays(a: seq<Node>, b: seq<Node>, p: Plan)
    requires |a| <= |b| && forall i :: 0 <= i < |a| ==> a[i].plan == b[i].plan
    requires InTable(a, p)
    ensures InTable(b, p)
  {
    var i :| 0 <= i < |a| && a[i].plan == p;
    assert b[i].plan == p;
  }

  lemma {:induction false} ShapeKeepsTarget(a: seq<Node>, b: seq<Node>, h: Hop)
    requires SameShape(a, b) && HopOk(a, h)
    ensures HopOk(b, h) && Target(b, h) == Target(a, h)
  {
    hide IndexOf;
    assert SameChildren(a[h.node].edges, b[h.node].edges);
    SamePlansSameIndex(a, b, a[h.node].edges[h.edge].child);
  }

  lemma {:induction false} PathMoves(nodes: seq<Node>, backups: seq<Arrival>, start: nat, path: seq<Hop>, leaf: nat,
                                     score: real, m: Measure)
    requires Table(nodes) && Linked(nodes, start, path, leaf)
    requires Outward(nodes, backups, m) && UnderWay(nodes, backups, start, Amount(score, m), m)
    ensures Outward(BackAlong(nodes, path, score), backups, m)
    ensures UnderWay(BackAlong(nodes, path, score), backups, leaf, Amount(score, m), m)
    decreases |path|
  {
    hide Outward, UnderWay, BackHop, Target, Linked, Table, Amount;
    if path == [] {
      NoHops(nodes, start, leaf);
    } else {
      var init, last := path[..|path| - 1], path[|path| - 1];
      var mid := BackAlong(nodes, init, score);
      LinkedInit(nodes, start, path, leaf);
      LastHop(nodes, start, path, leaf);
      PathMoves(nodes, backups, start, init, last.node, score, m);
      BackAlongShape(nodes, init, score);
      ShapeKeepsTable(nodes, mid);
      ShapeKeepsTarget(nodes, mid, last);
      HopMoves(mid, backups, last, score, m);
    }
  }

  lemma {:induction false} NoHops(nodes: seq<Node>, start: nat, leaf: nat)
    requires Linked(nodes, start, [], leaf)
    ensures leaf == start
  {}

  lemma {:induction false} LastHop(nodes: seq<Node>, start: nat, path: seq<Hop>, leaf: nat)
    requires Linked(nodes, start, path, leaf) && path != []
    ensures HopOk(nodes, path[|path| - 1]) && leaf == Target(nodes, path[|path| - 1])
  {}

  /** Counting the backup at its leaf ends it there. */
  lemma {:induction false} LeafEnds(nodes: seq<Node>, backups: seq<Arrival>, leaf: nat, score: real, m: Measure)
    requires Distinct(nodes) && leaf < |nodes|
    requires Outward(nodes, backups, m) && UnderWay(nodes, backups, leaf, Amount(score, m), m)
    ensures var after, more := BackLeaf(nodes, leaf, score), backups + [Arrival(nodes[leaf].plan, score)];
            Outward(after, more, m) && Inward(after, more, m)
  {
    hide OutFlow, FlowTo, InFlow;
    var after, more := BackLeaf(nodes, leaf, score), backups + [Arrival(nodes[leaf].plan, score)];
    assert more[..|backups|] == backups;
    forall i | 0 <= i < |nodes|
      ensures InFlow(after, nodes[i].plan, m) == InFlow(nodes, nodes[i].plan, m)
    {
      InFlowSet(nodes, leaf, after[leaf], nodes[i].plan, m);
    }
    forall i | 0 <= i < |nodes|
      ensures EndedFlow(more, nodes[i].plan, m)
           == EndedFlow(backups, nodes[i].plan, m) + if i == leaf then Amount(score, m) else 0.0
    {
      assert nodes[i].plan == nodes[leaf].plan <==> i == leaf;
    }
    assert AllFlow(more, m) == AllFlow(backups, m) + Amount(score, m);
  }

  // ---- Expansion ----------------------------------------------------------------------------------

  lemma {:induction false} OutFlowWiden(a: seq<Edge>, b: seq<Edge>, m: Measure)
    requires a <= b && Unvisited(b, |a|)
    ensures OutFlow(b, m) == OutFlow(a, m)
    decreases |b|
  {
    if |a| < |b| {
      OutFlowWiden(a, b[..|b| - 1], m);
    } else {
      assert a == b;
    }
  }

  lemma {:induction false} FlowToWiden(a: seq<Edge>, b: seq<Edge>, p: Plan, m: Measure)
    requires a <= b && Unvisited(b, |a|)
    ensures FlowTo(b, p, m) == FlowTo(a, p, m)
    decreases |b|
  {
    if |a| < |b| {
      FlowToWiden(a, b[..|b| - 1], p, m);
    } else {
      assert a == b;
    }
  }

  lemma {:induction false} InFlowWiden(a: seq<Node>, b: seq<Node>, p: Plan, m: Measure)
    requires Widened(a, b)
    ensures InFlow(b, p, m) == InFlow(a, p, m)
    decreases |b|
  {
    hide FlowTo, Unvisited;
    if |b| > 0 {
      var last := |b| - 1;
      if |a| < |b| {
        WidenedInit(a, b);
        InFlowWiden(a, b[..last], p, m);
        FlowToWiden([], b[last].edges, p, m);
        NoFlow(p, m);
      } else {
        WidenedBoth(a, b);
        InFlowWiden(a[..last], b[..last], p, m);
        FlowToWiden(a[last].edges, b[last].edges, p, m);
      }
    }
  }

  lemma {:induction false} NoFlow(p: Plan, m: Measure)
    ensures FlowTo([], p, m) == 0.0 && OutFlow([], m) == 0.0
  {}

  lemma {:induction false} WidenedInit(a: seq<Node>, b: seq<Node>)
    requires Widened(a, b) && |a| < |b|
    ensures Widened(a, b[..|b| - 1])
  {}

  lemma {:induction false} WidenedBoth(a: seq<Node>, b: seq<Node>)
    requires Widened(a, b) && |a| == |b| > 0
    ensures Widened(a[..|a| - 1], b[..|b| - 1])
  {}

  lemma {:induction false} NoFlowIntoStrangers(nodes: seq<Node>, p: Plan, m: Measure)
    requires !InTable(nodes, p) && forall i :: 0 <= i < |nodes| ==> EdgesIn(nodes, nodes[i].edges)
    ensures InFlow(nodes, p, m) == 0.0
  {
    NoFlowUpTo(nodes, |nodes|, p, m);
    assert nodes[..|nodes|] == nodes;
  }

  lemma {:induction false} NoFlowUpTo(nodes: seq<Node>, n: nat, p: Plan, m: Measure)
    requires n <= |nodes| && !InTable(nodes, p) && forall i :: 0 <= i < |nodes| ==> EdgesIn(nodes, nodes[i].edges)
    ensures InFlow(nodes[..n], p, m) == 0.0
  {
    hide FlowTo, InTable;
    if n > 0 {
      NoFlowUpTo(nodes, n - 1, p, m);
      assert nodes[..n][..n - 1] == nodes[..n - 1];
      assert EdgesIn(nodes, nodes[n - 1].edges);
      NoFlowOver(nodes, nodes[n - 1].edges, p, m);
    }
  }

  lemma {:induction false} NoFlowOver(nodes: seq<Node>, edges: seq<Edge>, p: Plan, m: Measure)
    requires !InTable(nodes, p) && EdgesIn(nodes, edges)
    ensures FlowTo(edges, p, m) == 0.0
    decreases |edges|
  {
    hide InTable;
    if edges != [] {
      assert InTable(nodes, edges[|edges| - 1].child);
      NoFlowOver(nodes, edges[..|edges| - 1], p, m);
    }
  }

  /** Every backup started at a plan of the table. */
  ghost predicate LeavesIn(nodes: seq<Node>, backups: seq<Arrival>) {
    forall b :: b in backups ==> InTable(nodes, b.leaf)
  }

  lemma {:induction false} NothingEnded(backups: seq<Arrival>, p: Plan, m: Measure)
    requires forall b :: b in backups ==> b.leaf != p
    ensures EndedFlow(backups, p, m) == 0.0
    decreases |backups|
  {
    if backups != [] {
      NothingEnded(backups[..|backups| - 1], p, m);
    }
  }

  lemma {:induction false} WideningBalances(a: seq<Node>, b: seq<Node>, backups: seq<Arrival>, m: Measure)
    requires Table(a) && Table(b) && Widened(a, b) && LeavesIn(a, backups)
    requires Outward(a, backups, m) && Inward(a, backups, m)
    ensures Outward(b, backups, m) && Inward(b, backups, m)
  {
    hide OutFlow, FlowTo, InFlow, EndedFlow, AllFlow, InTable;
    forall i | 0 <= i < |b|
      ensures NodeFlow(b[i], m) == OutFlow(b[i].edges, m) + EndedFlow(backups, b[i].plan, m)
      ensures NodeFlow(b[i], m) == InFlow(b, b[i].plan, m) + if i == 0 then AllFlow(backups, m) else 0.0
    {
      InFlowWiden(a, b, b[i].plan, m);
      NoFlow(b[i].plan, m);
      if i < |a| {
        OutFlowWiden(a[i].edges, b[i].edges, m);
      } else {
        OutFlowWiden([], b[i].edges, m);
        Stranger(a, b, i);
        NoFlowIntoStrangers(a, b[i].plan, m);
        NothingEnded(backups, b[i].plan, m);
      }
    }
  }

  lemma {:induction false} Stranger(a: seq<Node>, b: seq<Node>, i: nat)
    requires Widened(a, b) && Distinct(b) && |a| <= i < |b|
    ensures !InTable(a, b[i].plan)
  {}

  // ---- The table stays a table ------------------------------------------------------------------

  lemma {:induction false} PopulateOneKeepsTable(nodes: seq<Node>, i: nat, prop: Proposal, library: Option<Library>)
    requires Table(nodes) && i < |nodes|
    ensures Table(PopulateOne(nodes, i, prop, library))
    ensures PopulateOne(nodes, i, prop, library)[0].plan == nodes[0].plan
  {
    hide ApplyAction, HasAction, IndexOf, InTable;
    var r := ApplyAction(nodes[i].plan, prop.0, library);
    if r.Ok? && !HasAction(nodes[i].edges, prop.0) {
      var grown, after := WithPlan(nodes, r.value), PopulateOne(nodes, i, prop, library);
      WithPlanKeepsTable(nodes, r.value);
      assert EdgesIn(grown, grown[i].edges);
      forall k | 0 <= k < |after| ensures EdgesIn(after, after[k].edges) {
        assert EdgesIn(grown, grown[k].edges);
        forall j | 0 <= j < |after[k].edges| ensures InTable(after, after[k].edges[j].child) {
          if j < |grown[k].edges| {
            assert after[k].edges[j] == grown[k].edges[j];
          }
          InTableStays(grown, after, after[k].edges[j].child);
        }
      }
    }
  }

  lemma {:induction false} WithPlanKeepsTable(nodes: seq<Node>, p: Plan)
    requires Table(nodes)
    ensures Table(WithPlan(nodes, p)) && InTable(WithPlan(nodes, p), p)
  {
    hide InTable;
    var grown, at := WithPlan(nodes, p), IndexOf(nodes, p);
    if at < |nodes| {
      Listed(nodes, at);
    } else {
      Listed(grown, |nodes|);
      forall k | 0 <= k < |grown| ensures EdgesIn(grown, grown[k].edges) {
        if k < |nodes| {
          assert EdgesIn(nodes, nodes[k].edges);
          forall j | 0 <= j < |grown[k].edges| ensures InTable(grown, grown[k].edges[j].child) {
            InTableStays(nodes, grown, grown[k].edges[j].child);
          }
        }
      }
    }
  }

  lemma {:induction false} Listed(nodes: seq<Node>, i: nat)
    requires i < |nodes|
    ensures InTable(nodes, nodes[i].plan)
  {}

  lemma {:induction false} PopulateKeepsTable(nodes: seq<Node>, i: nat, props: seq<Proposal>, library: Option<Library>)
    requires Table(nodes) && i < |nodes|
    ensures Table(Populate(nodes, i, props, library))
    ensures Populate(nodes, i, props, library)[0].plan == nodes[0].plan
    decreases |props|
  {
    hide PopulateOne, Table;
    if props != [] {
      PopulateKeepsTable(nodes, i, props[..|props| - 1], library);
      PopulateOneKeepsTable(Populate(nodes, i, props[..|props| - 1], library), i, props[|props| - 1], library);
    }
  }

  lemma {:induction false} GrownKeepsTable(nodes: seq<Node>, i: nat, props: seq<Proposal>, library: Option<Library>)
    requires Table(nodes) && i < |nodes|
    ensures Table(Grown(nodes, i, props, library)) && Grown(nodes, i, props, library)[0].plan == nodes[0].plan
  {
    hide Populate, Table;
    PopulateKeepsTable(nodes, i, props, library);
    var r := Populate(nodes, i, props, library);
    MarkShape(r, i);
    ShapeKeepsTable(r, MarkTerminal(r, i));
  }

  lemma {:induction false} MarkShape(nodes: seq<Node>, i: nat)
    requires i < |nodes|
    ensures SameShape(nodes, MarkTerminal(nodes, i)) && MarkTerminal(nodes, i)[0].plan == nodes[0].plan
  {}

  lemma {:induction false} ExpandKeepsTable(s: Setup, st: State, i: nat)
    requires Table(st.nodes) && i < |st.nodes| && Expanded(s, st, i).Ok?
    ensures var st' := Expanded(s, st, i).value; Table(st'.nodes) && st'.nodes[0].plan == st.nodes[0].plan
  {
    hide Grown, Table, PriorsOff;
    var plan := st.nodes[i].plan;
    if plan in st.proposals {
      GrownKeepsTable(st.nodes, i, st.proposals[plan], s.library);
    } else if s.propose(plan, s.config.expanderK, |st.asked|).Some? {
      GrownKeepsTable(st.nodes, i, s.propose(plan, s.config.expanderK, |st.asked|).value, s.library);
    }
  }

  // ---- Between two turns --------------------------------------------------------------------------

  ghost predicate Balanced(nodes: seq<Node>, backups: seq<Arrival>) {
    forall m: Measure :: Outward(nodes, backups, m) && Inward(nodes, backups, m)
  }

  /** The invariant between two turns. */
  ghost predicate Sound(s: Setup, st: State) {
    && Table(st.nodes) && st.nodes[0].plan == s.initial && LeavesIn(st.nodes, st.backups)
    && Balanced(st.nodes, st.backups)
  }

  lemma {:induction false} StartIsSound(s: Setup)
    ensures Sound(s, Start(s))
  {
    forall m: Measure ensures Outward(Start(s).nodes, [], m) && Inward(Start(s).nodes, [], m) {
      NoFlow(s.initial, m);
      assert Start(s).nodes[..0] == [];
    }
  }

  /** Backing a score up along a linked path from the root keeps every balance. */
  lemma {:induction false} BackupBalances(nodes: seq<Node>, backups: seq<Arrival>, w: Walk, score: real)
    requires Table(nodes) && Balanced(nodes, backups) && Linked(nodes, 0, w.path, w.leaf) && w.leaf < |nodes|
    ensures var after := BackLeaf(BackAlong(nodes, w.path, score), w.leaf, score);
            Table(after) && Balanced(after, backups + [Arrival(nodes[w.leaf].plan, score)])
  {
    hide BackAlong, Table, Linked;
    var mid := BackAlong(nodes, w.path, score);
    BackAlongShape(nodes, w.path, score);
    ShapeKeepsTable(nodes, mid);
    TableIsDistinct(mid);
    BackLeafShape(mid, w.leaf, score);
    ShapeKeepsTable(mid, BackLeaf(mid, w.leaf, score));
    forall m: Measure
      ensures var after, more := BackLeaf(mid, w.leaf, score), backups + [Arrival(nodes[w.leaf].plan, score)];
              Outward(after, more, m) && Inward(after, more, m)
    {
      Sets(nodes, backups, score, m);
      PathMoves(nodes, backups, 0, w.path, w.leaf, score, m);
      LeafEnds(mid, backups, w.leaf, score, m);
    }
  }

  lemma {:induction false} TableIsDistinct(nodes: seq<Node>)
    requires Table(nodes)
    ensures Distinct(nodes)
  {}

  /** A backup sets out at the root. */
  lemma {:induction false} Sets(nodes: seq<Node>, backups: seq<Arrival>, score: real, m: Measure)
    requires Balanced(nodes, backups)
    ensures Outward(nodes, backups, m) && UnderWay(nodes, backups, 0, Amount(score, m), m)
  {}

  lemma {:induction false} BackLeafShape(nodes: seq<Node>, i: nat, score: real)
    requires i < |nodes|
    ensures SameShape(nodes, BackLeaf(nodes, i, score))
  {}

  lemma {:induction false} BackedUpIsSound(s: Setup, st: State, w: Walk, score: real)
    requires Sound(s, st) && Linked(st.nodes, 0, w.path, w.leaf) && w.leaf < |st.nodes|
    ensures Sound(s, BackedUp(st, w, score))
  {
    hide Table, Linked, Balanced, BackAlong, InTable;
    var after := BackedUp(st, w, score);
    BackupBalances(st.nodes, st.backups, w, score);
    BackAlongShape(st.nodes, w.path, score);
    Listed(st.nodes, w.leaf);
    assert forall i :: 0 <= i < |st.nodes| ==> after.nodes[i].plan == st.nodes[i].plan;
    forall b | b in after.backups ensures InTable(after.nodes, b.leaf) {
      InTableStays(st.nodes, after.nodes, b.leaf);
    }
    TableNonEmpty(st.nodes);
  }

  lemma {:induction false} TableNonEmpty(nodes: seq<Node>)
    requires Table(nodes)
    ensures nodes != []
  {}

  lemma {:induction false} EvaluatedIsSound(s: Setup, st: State, w: Walk)
    requires Sound(s, st) && Linked(st.nodes, 0, w.path, w.leaf) && w.leaf < |st.nodes|
    ensures Sound(s, Evaluated(s, st, w))
  {
    hide BackedUp, Table, Linked, Balanced, LeavesIn;
    var plan := st.nodes[w.leaf].plan;
    if plan in st.scores {
      BackedUpIsSound(s, st, w, st.scores[plan]);
    } else {
      match s.evaluate(plan, st.attempts)
      case Score(x) =>
        BackedUpIsSound(s, st.(attempts := st.attempts + 1, scores := st.scores[plan := x]), w, x);
      case _ =>
    }
  }

  lemma {:induction false} ExpandIsSound(s: Setup, st: State, i: nat)
    requires Sound(s, st) && i < |st.nodes| && Expanded(s, st, i).Ok?
    ensures Sound(s, Expanded(s, st, i).value)
  {
    hide Expanded, Outward, Inward, Widened, InTable;
    var st' := Expanded(s, st, i).value;
    ExpandKeepsTable(s, st, i);
    ExpandWidens(s, st, i);
    WidenedPlans(st.nodes, st'.nodes);
    forall m: Measure ensures Outward(st'.nodes, st.backups, m) && Inward(st'.nodes, st.backups, m) {
      WideningBalances(st.nodes, st'.nodes, st.backups, m);
    }
    forall b | b in st.backups ensures InTable(st'.nodes, b.leaf) {
      InTableStays(st.nodes, st'.nodes, b.leaf);
    }
  }

  lemma {:induction false} WidenedPlans(a: seq<Node>, b: seq<Node>)
    requires Widened(a, b)
    ensures |a| <= |b| && forall i :: 0 <= i < |a| ==> a[i].plan == b[i].plan
  {}

  /** A walk chosen before EXPAND is still linked after it. */
  lemma {:induction false} LinkedStays(a: seq<Node>, b: seq<Node>, path: seq<Hop>, leaf: nat)
    requires Table(a) && Widened(a, b) && Linked(a, 0, path, leaf)
    ensures Linked(b, 0, path, leaf)
  {
    hide Target, HopOk, Table, Widened;
    HopsStayOk(a, b, path);
    forall k | 0 <= k < |path| ensures Target(b, path[k]) == Target(a, path[k]) {
      TargetStays(a, b, path[k]);
    }
  }

  lemma {:induction false} TargetStays(a: seq<Node>, b: seq<Node>, h: Hop)
    requires Table(a) && Widened(a, b) && HopOk(a, h) && HopOk(b, h)
    ensures Target(b, h) == Target(a, h)
  {
    hide IndexOf, InTable, Unvisited;
    var e := a[h.node].edges[h.edge];
    assert a[h.node].edges <= b[h.node].edges && b[h.node].edges[h.edge] == e;
    assert EdgesIn(a, a[h.node].edges);
    assert InTable(a, e.child);
    SamePlansSameIndex(a, b, e.child);
    InTableAt(a, e.child);
  }

  lemma {:induction false} InTableAt(nodes: seq<Node>, p: Plan)
    requires InTable(nodes, p)
    ensures IndexOf(nodes, p) < |nodes|
  {}

  lemma {:induction false} SoundTable(s: Setup, st: State)
    requires Sound(s, st)
    ensures Table(st.nodes) && st.nodes != []
  {}

  lemma {:induction false} SoundButStreak(s: Setup, st: State, st1: State)
    requires Sound(s, st) && st1.nodes == st.nodes && st1.backups == st.backups
    ensures Sound(s, st1)
  {}
}
