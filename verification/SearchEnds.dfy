/** Termination of the plan search, and how often it asks its expander and its evaluator. */
module SearchEnds {
  import opened Wrappers
  import opened Plans
  import opened Search
  import opened SearchFlow
  import opened SearchLaws

  // ---- A walk of more steps than there are nodes never ends -------------------------------------

  /** The node one step of SELECT goes to; a leaf goes nowhere. */
  function Onwards(s: Setup, nodes: seq<Node>, i: nat): (j: nat)
    requires i < |nodes|
    ensures j < |nodes|
  {
    if IsLeaf(nodes[i]) then i else Follow(nodes, nodes[i].edges[BestEdge(s, nodes[i], |nodes[i].edges|)])
  }

  function WalkAt(s: Setup, nodes: seq<Node>, i: nat, n: nat): (j: nat)
    requires i < |nodes|
    ensures j < |nodes|
    decreases n
  {
    if n == 0 then i else WalkAt(s, nodes, Onwards(s, nodes, i), n - 1)
  }

  lemma {:induction false} WalkOn(s: Setup, nodes: seq<Node>, i: nat, a: nat, b: nat)
    requires i < |nodes|
    ensures WalkAt(s, nodes, WalkAt(s, nodes, i, a), b) == WalkAt(s, nodes, i, a + b)
    decreases a
  {
    hide Onwards;
    if a > 0 {
      WalkOn(s, nodes, Onwards(s, nodes, i), a - 1, b);
    }
  }

  /** SELECT does not end within `steps` steps exactly when none of the nodes it passes is a leaf. */
  lemma {:induction false} SelectGoesOn(s: Setup, nodes: seq<Node>, i: nat, steps: nat)
    requires i < |nodes|
    ensures Select(s, nodes, i, steps).None? <==> forall k :: 0 <= k <= steps ==> !IsLeaf(nodes[WalkAt(s, nodes, i, k)])
    decreases steps
  {
    hide IsLeaf, Follow, BestEdge, Onwards;
    assert WalkAt(s, nodes, i, 0) == i;
    if IsLeaf(nodes[i]) {
      assert IsLeaf(nodes[WalkAt(s, nodes, i, 0)]);
    } else if steps == 0 {
      assert forall k :: 0 <= k <= steps ==> WalkAt(s, nodes, i, k) == i;
    } else {
      var next := Onwards(s, nodes, i);
      SelectStep(s, nodes, i, steps);
      SelectGoesOn(s, nodes, next, steps - 1);
      if Select(s, nodes, next, steps - 1).None? {
        forall k | 0 <= k <= steps ensures !IsLeaf(nodes[WalkAt(s, nodes, i, k)]) {
          if k > 0 {
            assert !IsLeaf(nodes[WalkAt(s, nodes, next, k - 1)]);
          }
        }
      } else {
        var k :| 0 <= k <= steps - 1 && IsLeaf(nodes[WalkAt(s, nodes, next, k)]);
        assert IsLeaf(nodes[WalkAt(s, nodes, i, k + 1)]);
      }
    }
  }

  lemma {:induction false} SelectStep(s: Setup, nodes: seq<Node>, i: nat, steps: nat)
    requires i < |nodes| && !IsLeaf(nodes[i]) && steps > 0
    ensures Select(s, nodes, i, steps).None? <==> Select(s, nodes, Onwards(s, nodes, i), steps - 1).None?
  {
    hide Follow;
  }

  lemma {:induction false} Pigeonhole(f: seq<nat>, m: nat) returns (a: nat, b: nat)
    requires |f| > m && forall k :: 0 <= k < |f| ==> f[k] < m
    ensures a < b < |f| && f[a] == f[b]
    decreases m
  {
    var last := f[|f| - 1];
    if k :| 0 <= k < |f| - 1 && f[k] == last {
      return k, |f| - 1;
    }
    var g := seq(|f| - 1, k requires 0 <= k < |f| - 1 => if f[k] > last then f[k] - 1 else f[k]);
    a, b := Pigeonhole(g, m - 1);
    assert f[a] != last && f[b] != last;
  }

  /** A walk that passes no leaf in as many steps as the table has nodes comes back to a node, and
      so goes round for ever: the bound `Turn` puts on SELECT cuts no walk that would end. */
  lemma {:induction false} LongWalksNeverEnd(s: Setup, nodes: seq<Node>, i: nat, n: nat)
    requires i < |nodes| && Select(s, nodes, i, |nodes|).None?
    ensures Select(s, nodes, i, n).None?
  {
    hide Select, WalkAt, IsLeaf;
    SelectGoesOn(s, nodes, i, |nodes|);
    SelectGoesOn(s, nodes, i, n);
    var f := seq(|nodes| + 1, k requires 0 <= k < |nodes| + 1 => WalkAt(s, nodes, i, k));
    var a, b := Pigeonhole(f, |nodes|);
    forall k | 0 <= k <= n ensures !IsLeaf(nodes[WalkAt(s, nodes, i, k)]) {
      GoesRound(s, nodes, i, a, b, k);
    }
  }

  lemma {:induction false} GoesRound(s: Setup, nodes: seq<Node>, i: nat, a: nat, b: nat, k: nat)
    requires i < |nodes| && a < b && WalkAt(s, nodes, i, a) == WalkAt(s, nodes, i, b)
    requires forall j :: 0 <= j <= b ==> !IsLeaf(nodes[WalkAt(s, nodes, i, j)])
    ensures !IsLeaf(nodes[WalkAt(s, nodes, i, k)])
    decreases k
  {
    hide WalkAt, IsLeaf;
    if k > b {
      WalkOn(s, nodes, i, b, k - b);
      WalkOn(s, nodes, i, a, k - b);
      GoesRound(s, nodes, i, a, b, k - b + a);
    }
  }

  /** The walk is at the same node after `a` and after `b` steps, and has met no leaf by then. */
  predicate ComesBack(s: Setup, nodes: seq<Node>, i: nat, a: nat, b: nat)
    requires i < |nodes|
  {
    && a < b && WalkAt(s, nodes, i, a) == WalkAt(s, nodes, i, b)
    && forall k :: 0 <= k <= b ==> !IsLeaf(nodes[WalkAt(s, nodes, i, k)])
  }

  ghost predicate NeverEnds(s: Setup, nodes: seq<Node>, i: nat)
    requires i < |nodes|
  {
    forall n: nat :: Select(s, nodes, i, n).None?
  }

  lemma {:induction false} GoesOnForEver(s: Setup, nodes: seq<Node>, i: nat, a: nat, b: nat)
    requires i < |nodes| && ComesBack(s, nodes, i, a, b)
    ensures NeverEnds(s, nodes, i)
  {
    hide Select, WalkAt, IsLeaf;
    forall n: nat ensures Select(s, nodes, i, n).None? {
      SelectGoesOn(s, nodes, i, n);
      forall k | 0 <= k <= n ensures !IsLeaf(nodes[WalkAt(s, nodes, i, k)]) {
        GoesRound(s, nodes, i, a, b, k);
      }
    }
  }

  lemma {:induction false} Revisits(s: Setup, nodes: seq<Node>, i: nat, a: nat, b: nat)
    requires i < |nodes| && a < b && WalkAt(s, nodes, i, a) == WalkAt(s, nodes, i, b)
    requires forall k :: 0 <= k <= b ==> !IsLeaf(nodes[WalkAt(s, nodes, i, k)])
    ensures ComesBack(s, nodes, i, a, b)
  {
    hide WalkAt, IsLeaf;
    forall k | 0 <= k <= b ensures !IsLeaf(nodes[WalkAt(s, nodes, i, k)]) {}
  }

  /** SELECT never ends if and only if its walk comes back to a node before it meets a leaf, which it does,
      if at all, within as many steps as the table has nodes. */
  lemma {:induction false} NeverEndsIff(s: Setup, nodes: seq<Node>, i: nat)
    requires i < |nodes|
    ensures NeverEnds(s, nodes, i) <==> exists a: nat, b: nat :: ComesBack(s, nodes, i, a, b)
    ensures NeverEnds(s, nodes, i) <==> exists a: nat, b: nat :: b <= |nodes| && ComesBack(s, nodes, i, a, b)
  {
    hide Select, WalkAt, IsLeaf;
    if a: nat, b: nat :| ComesBack(s, nodes, i, a, b) {
      GoesOnForEver(s, nodes, i, a, b);
    }
    if NeverEnds(s, nodes, i) {
      assert Select(s, nodes, i, |nodes|).None?;
      SelectGoesOn(s, nodes, i, |nodes|);
      var f := seq(|nodes| + 1, k requires 0 <= k < |nodes| + 1 => WalkAt(s, nodes, i, k));
      var a, b := Pigeonhole(f, |nodes|);
      Revisits(s, nodes, i, a, b);
    }
  }

  // ---- Accepted proposals ------------------------------------------------------------------------------

  /** A relation between a plan and one made of it. */
  type Rel = (Plan, Plan) -> bool

  predicate ProposalsWithin(p: Plan, props: seq<Proposal>, library: Option<Library>, rel: Rel) {
    forall j :: 0 <= j < |props| && ApplyAction(p, props[j].0, library).Ok? ==>
      rel(p, ApplyAction(p, props[j].0, library).value)
  }

  /** Every proposal the search can be given for a plan, if accepted, is in the relation. */
  ghost predicate ExpanderWithin(s: Setup, rel: Rel) {
    forall p: Plan, n: nat :: s.propose(p, s.config.expanderK, n).Some? ==>
      ProposalsWithin(p, s.propose(p, s.config.expanderK, n).value, s.library, rel)
  }

  predicate EdgesWithin(p: Plan, edges: seq<Edge>, rel: Rel) {
    forall j :: 0 <= j < |edges| ==> rel(p, edges[j].child)
  }

  /** Every edge of the table is in the relation. */
  predicate Within(nodes: seq<Node>, rel: Rel) {
    forall i :: 0 <= i < |nodes| ==> EdgesWithin(nodes[i].plan, nodes[i].edges, rel)
  }

  lemma {:induction false} PopulateOneWithin(nodes: seq<Node>, i: nat, prop: Proposal, library: Option<Library>,
                                             rel: Rel)
    requires i < |nodes| && Within(nodes, rel) && ProposalsWithin(nodes[i].plan, [prop], library, rel)
    ensures Within(PopulateOne(nodes, i, prop, library), rel)
    ensures PopulateOne(nodes, i, prop, library)[i].plan == nodes[i].plan
  {
    hide ApplyAction, HasAction, IndexOf;
    var r := ApplyAction(nodes[i].plan, prop.0, library);
    if r.Ok? && !HasAction(nodes[i].edges, prop.0) {
      assert [prop][0] == prop;
      var grown, after := WithPlan(nodes, r.value), PopulateOne(nodes, i, prop, library);
      assert EdgesWithin(nodes[i].plan, nodes[i].edges, rel);
      forall k | 0 <= k < |after| ensures EdgesWithin(after[k].plan, after[k].edges, rel) {
        if k != i && k < |nodes| {
          assert after[k] == nodes[k];
        }
      }
    }
  }

  lemma {:induction false} PopulateWithin(nodes: seq<Node>, i: nat, props: seq<Proposal>, library: Option<Library>,
                                          rel: Rel)
    requires i < |nodes| && Within(nodes, rel) && ProposalsWithin(nodes[i].plan, props, library, rel)
    ensures Within(Populate(nodes, i, props, library), rel)
            && Populate(nodes, i, props, library)[i].plan == nodes[i].plan
    decreases |props|
  {
    hide PopulateOne, Within, ApplyAction;
    if props != [] {
      var init, last := props[..|props| - 1], props[|props| - 1];
      PopulateWithin(nodes, i, init, library, rel);
      assert props[|props| - 1] == last;
      PopulateOneWithin(Populate(nodes, i, init, library), i, last, library, rel);
    }
  }

  lemma {:induction false} GrownWithin(nodes: seq<Node>, i: nat, props: seq<Proposal>, library: Option<Library>,
                                       rel: Rel)
    requires i < |nodes| && Within(nodes, rel) && ProposalsWithin(nodes[i].plan, props, library, rel)
    ensures Within(Grown(nodes, i, props, library), rel)
  {
    hide Populate, ProposalsWithin, EdgesWithin;
    PopulateWithin(nodes, i, props, library, rel);
  }

  lemma {:induction false} ShapeWithin(a: seq<Node>, b: seq<Node>, rel: Rel)
    requires SameShape(a, b) && Within(a, rel)
    ensures Within(b, rel)
  {
    forall i | 0 <= i < |b| ensures EdgesWithin(b[i].plan, b[i].edges, rel) {
      assert EdgesWithin(a[i].plan, a[i].edges, rel) && SameChildren(a[i].edges, b[i].edges);
    }
  }

  /** So are all cached proposals. */
  predicate CachedWithin(st: State, library: Option<Library>, rel: Rel) {
    forall p :: p in st.proposals ==> ProposalsWithin(p, st.proposals[p], library, rel)
  }

  lemma {:induction false} ExpandWithin(s: Setup, st: State, i: nat, rel: Rel)
    requires ExpanderWithin(s, rel) && i < |st.nodes| && Within(st.nodes, rel) && CachedWithin(st, s.library, rel)
    requires Expanded(s, st, i).Ok?
    ensures Within(Expanded(s, st, i).value.nodes, rel) && CachedWithin(Expanded(s, st, i).value, s.library, rel)
  {
    hide Grown, PriorsOff, ProposalsWithin, EdgesWithin;
    var plan := st.nodes[i].plan;
    if plan in st.proposals {
      GrownWithin(st.nodes, i, st.proposals[plan], s.library, rel);
    } else if s.propose(plan, s.config.expanderK, |st.asked|).Some? {
      GrownWithin(st.nodes, i, s.propose(plan, s.config.expanderK, |st.asked|).value, s.library, rel);
    }
  }

  lemma {:induction false} EvaluatedShape(s: Setup, st: State, w: Walk)
    requires w.leaf < |st.nodes|
    ensures SameShape(st.nodes, Evaluated(s, st, w).nodes)
    ensures Evaluated(s, st, w).proposals == st.proposals && Evaluated(s, st, w).asked == st.asked
  {
    hide BackAlong, SameShape;
    var plan := st.nodes[w.leaf].plan;
    ShapeSelf(st.nodes);
    if plan in st.scores || s.evaluate(plan, st.attempts).Score? {
      var score := if plan in st.scores then st.scores[plan] else s.evaluate(plan, st.attempts).value;
      BackAlongShape(st.nodes, w.path, score);
      BackLeafShape(BackAlong(st.nodes, w.path, score), w.leaf, score);
      ShapeTrans(st.nodes, BackAlong(st.nodes, w.path, score),
                 BackLeaf(BackAlong(st.nodes, w.path, score), w.leaf, score));
    }
  }

  lemma {:induction false} ShapeSelf(a: seq<Node>)
    ensures SameShape(a, a)
  {}

  lemma {:induction false} ShapeTrans(a: seq<Node>, b: seq<Node>, c: seq<Node>)
    requires SameShape(a, b) && SameShape(b, c)
    ensures SameShape(a, c)
  {
    forall i | 0 <= i < |a| ensures SameChildren(a[i].edges, c[i].edges) {
      assert SameChildren(a[i].edges, b[i].edges) && SameChildren(b[i].edges, c[i].edges);
    }
  }

  lemma {:induction false} RunWithin(s: Setup, run: seq<State>, n: nat, rel: Rel)
    requires ExpanderWithin(s, rel) && IsRun(s, run) && n < |run|
    ensures Within(run[n].nodes, rel) && CachedWithin(run[n], s.library, rel)
  {
    hide ExpanderWithin, ProposalsWithin, Within, Expanded, Evaluated, Select, Stops, SameShape;
    if n == 0 {
      NoEdgesWithin(s, rel);
    } else {
      RunWithin(s, run, n - 1, rel);
      assert StepAt(s, run, n);
      var st := run[n - 1];
      var w := Select(s, st.nodes, 0, |st.nodes|).value;
      var st1 := st.(streak := StreakAfter(s, st));
      ExpandWithin(s, st1, w.leaf, rel);
      var st2 := Expanded(s, st1, w.leaf).value;
      EvaluatedShape(s, st2, w);
      ShapeWithin(st2.nodes, Evaluated(s, st2, w).nodes, rel);
    }
  }

  lemma {:induction false} NoEdgesWithin(s: Setup, rel: Rel)
    ensures Within(Start(s).nodes, rel)
  {}

  /** The loop goes through a run, and ends in the turn from its last state, after at most `max_iter`
      turns. */
  lemma {:induction false} LoopIsARun(s: Setup, run: seq<State>) returns (full: seq<State>)
    requires IsRun(s, run) && |run| <= s.config.maxIter + 1
    ensures run <= full && IsRun(s, full) && |full| <= s.config.maxIter + 1
    ensures run[|run| - 1].nodes != [] && full[|full| - 1].nodes != []
    ensures Until(s, run[|run| - 1]) == Turn(s, full[|full| - 1])
    decreases s.config.maxIter + 1 - |run|
  {
    hide Turn;
    var last := run[|run| - 1];
    RunCounts(s, run, |run| - 1);
    match Turn(s, last)
    case Next(st) =>
      var longer := run + [st];
      forall i: int ensures StepAt(s, longer, i) {
        assert StepAt(s, run, i);
      }
      full := LoopIsARun(s, longer);
    case _ => full := run;
  }

  // ---- Only a cycle of accepted proposals makes the search hang --------------------------------------------

  /** The expander may propose for `p` an action that is accepted and makes `c` of it. */
  ghost predicate Accepts(s: Setup, p: Plan, c: Plan) {
    exists n: nat, j: nat :: AcceptsAt(s, p, c, n, j)
  }

  predicate AcceptsAt(s: Setup, p: Plan, c: Plan, n: nat, j: nat) {
    var props := s.propose(p, s.config.expanderK, n);
    props.Some? && j < |props.value| && ApplyAction(p, props.value[j].0, s.library) == Ok(c)
  }

  ghost function AcceptedRel(s: Setup): Rel {
    (p, c) => Accepts(s, p, c)
  }

  lemma {:induction false} ExpanderAccepts(s: Setup)
    ensures ExpanderWithin(s, AcceptedRel(s))
  {
    hide ApplyAction;
    forall p: Plan, n: nat | s.propose(p, s.config.expanderK, n).Some?
      ensures ProposalsWithin(p, s.propose(p, s.config.expanderK, n).value, s.library, AcceptedRel(s))
    {
      var props := s.propose(p, s.config.expanderK, n).value;
      forall j | 0 <= j < |props| && ApplyAction(p, props[j].0, s.library).Ok?
        ensures AcceptedRel(s)(p, ApplyAction(p, props[j].0, s.library).value)
      {
        assert AcceptsAt(s, p, ApplyAction(p, props[j].0, s.library).value, n, j);
      }
    }
  }

  /** A walk of accepted proposals from the initial plan. */
  ghost predicate Chain(s: Setup, ps: seq<Plan>) {
    ps != [] && ps[0] == s.initial && forall i :: 0 <= i < |ps| - 1 ==> Accepts(s, ps[i], ps[i + 1])
  }

  lemma {:induction false} WalkStep(s: Setup, nodes: seq<Node>, i: nat, k: nat, rel: Rel)
    requires Table(nodes) && Within(nodes, rel) && i < |nodes| && !IsLeaf(nodes[WalkAt(s, nodes, i, k)])
    ensures rel(nodes[WalkAt(s, nodes, i, k)].plan, nodes[WalkAt(s, nodes, i, k + 1)].plan)
  {
    hide WalkAt, IndexOf, InTable, Follow, BestEdge;
    WalkOn(s, nodes, i, k, 1);
    var j := WalkAt(s, nodes, i, k);
    OneOnwards(s, nodes, j);
    var e := nodes[j].edges[BestEdge(s, nodes[j], |nodes[j].edges|)];
    assert EdgesIn(nodes, nodes[j].edges) && EdgesWithin(nodes[j].plan, nodes[j].edges, rel);
    FollowIs(nodes, e);
  }

  lemma {:induction false} OneOnwards(s: Setup, nodes: seq<Node>, j: nat)
    requires j < |nodes|
    ensures WalkAt(s, nodes, j, 1) == Onwards(s, nodes, j)
  {
    hide Onwards;
    assert WalkAt(s, nodes, Onwards(s, nodes, j), 0) == Onwards(s, nodes, j);
  }

  /** A search that hangs has been led round a cycle: accepted proposals lead from the initial plan to some plan
      and from that plan back to it. So where they lead round no cycle every search ends, whatever the
      scores. */
  lemma {:induction false} HangsOnACycle(s: Setup) returns (ps: seq<Plan>, a: nat, b: nat)
    requires Until(s, Start(s)) == Hangs
    ensures Chain(s, ps) && a < b < |ps| && ps[a] == ps[b]
  {
    hide Turn, ExpanderWithin, Select, Within, Table, WalkAt, IsLeaf, Accepts;
    var run := LoopIsARun(s, [Start(s)]);
    var st := run[|run| - 1];
    ExpanderAccepts(s);
    RunWithin(s, run, |run| - 1, AcceptedRel(s));
    RunIsSound(s, run, |run| - 1);
    SoundTable(s, st);
    SoundRoot(s, st);
    HangingWalk(s, st);
    NeverEndsIff(s, st.nodes, 0);
    a, b :| ComesBack(s, st.nodes, 0, a, b);
    ps := seq(b + 1, k requires 0 <= k < b + 1 => st.nodes[WalkAt(s, st.nodes, 0, k)].plan);
    assert WalkAt(s, st.nodes, 0, 0) == 0 by {
      NoSteps(s, st.nodes, 0);
    }
    forall k | 0 <= k < b ensures Accepts(s, ps[k], ps[k + 1]) {
      WalkStep(s, st.nodes, 0, k, AcceptedRel(s));
    }
  }

  lemma {:induction false} NoSteps(s: Setup, nodes: seq<Node>, i: nat)
    requires i < |nodes|
    ensures WalkAt(s, nodes, i, 0) == i
  {}

  lemma {:induction false} SoundRoot(s: Setup, st: State)
    requires Sound(s, st)
    ensures st.nodes != [] && st.nodes[0].plan == s.initial
  {}

  lemma {:induction false} HangingWalk(s: Setup, st: State)
    requires st.nodes != [] && Turn(s, st) == Hangs
    ensures NeverEnds(s, st.nodes, 0)
  {
    hide Select, TurnAt, Stops;
    forall n: nat ensures Select(s, st.nodes, 0, n).None? {
      LongWalksNeverEnd(s, st.nodes, 0, n);
    }
  }

  // ---- Growing plans ----------------------------------------------------------------------------------

  /** A number for each plan; its number of nodes, say. */
  type Rank = Plan -> int

  function Raises(rank: Rank): Rel {
    (p, c) => rank(c) > rank(p)
  }

  /** Every proposal of the expander, if accepted, gives a plan of higher rank. */
  ghost predicate GrowingExpander(s: Setup, rank: Rank) {
    ExpanderWithin(s, Raises(rank))
  }

  /** An expander that proposes only AddStep and ComposeWithSkill is one, for the number of nodes. */
  lemma {:induction false} OnlyAddingGrows(s: Setup)
    requires forall p: Plan, k: nat, n: nat :: s.propose(p, k, n).Some? ==>
               forall j :: 0 <= j < |s.propose(p, k, n).value| ==> !s.propose(p, k, n).value[j].0.SubstituteLeaf?
    ensures GrowingExpander(s, p => Size(p))
  {
    hide ApplyAction, Size;
    forall p: Plan, n: nat | s.propose(p, s.config.expanderK, n).Some?
      ensures ProposalsWithin(p, s.propose(p, s.config.expanderK, n).value, s.library, Raises(p => Size(p)))
    {
      var props := s.propose(p, s.config.expanderK, n).value;
      forall j | 0 <= j < |props| && ApplyAction(p, props[j].0, s.library).Ok?
        ensures Size(ApplyAction(p, props[j].0, s.library).value) > Size(p)
      {
        ActionsGrow(p, props[j].0, s.library);
      }
    }
  }

  lemma {:induction false} AcceptsRaises(s: Setup, rank: Rank, p: Plan, c: Plan)
    requires GrowingExpander(s, rank) && Accepts(s, p, c)
    ensures rank(c) > rank(p)
  {
    hide ApplyAction;
    var n: nat, j: nat :| AcceptsAt(s, p, c, n, j);
    assert ProposalsWithin(p, s.propose(p, s.config.expanderK, n).value, s.library, Raises(rank));
  }

  lemma {:induction false} ChainClimbs(s: Setup, rank: Rank, ps: seq<Plan>, a: nat, b: nat)
    requires GrowingExpander(s, rank) && Chain(s, ps) && a < b < |ps|
    ensures rank(ps[a]) < rank(ps[b])
    decreases b
  {
    hide GrowingExpander, Accepts;
    AcceptsRaises(s, rank, ps[b - 1], ps[b]);
    if a < b - 1 {
      ChainClimbs(s, rank, ps, a, b - 1);
    }
  }

  /** When every accepted proposal raises the rank of its plan, for any rank there may be, the search
      comes to an end: it returns, or passes on an error of its expander, within `max_iter` iterations. */
  lemma {:induction false} GrowingSearchEnds(s: Setup, rank: Rank) returns (run: seq<State>)
    requires GrowingExpander(s, rank)
    ensures IsRun(s, run) && |run| <= s.config.maxIter + 1 && run[|run| - 1].nodes != []
    ensures Until(s, Start(s)) == Turn(s, run[|run| - 1]) && Until(s, Start(s)) != Hangs
  {
    hide Turn, GrowingExpander;
    run := LoopIsARun(s, [Start(s)]);
    if Until(s, Start(s)) == Hangs {
      var ps, a, b := HangsOnACycle(s);
      ChainClimbs(s, rank, ps, a, b);
    }
  }

  // ---- Paths ---------------------------------------------------------------------------------------------

  /** The `k`-th node of a walk, its leaf last. */
  function Stop(w: Walk, k: nat): nat
    requires k <= |w.path|
  {
    if k < |w.path| then w.path[k].node else w.leaf
  }

  lemma {:induction false} StopsClimb(nodes: seq<Node>, w: Walk, a: nat, b: nat, rank: Rank)
    requires Table(nodes) && Within(nodes, Raises(rank)) && w.leaf < |nodes| && Linked(nodes, 0, w.path, w.leaf)
    requires a < b <= |w.path|
    ensures Stop(w, a) < |nodes| && Stop(w, b) < |nodes|
    ensures rank(nodes[Stop(w, a)].plan) < rank(nodes[Stop(w, b)].plan)
    decreases b
  {
    hide IndexOf, InTable, Follow;
    var h := w.path[b - 1];
    assert HopOk(nodes, w.path[a]);
    assert HopOk(nodes, h) && Stop(w, b) == Target(nodes, h);
    assert EdgesWithin(nodes[h.node].plan, nodes[h.node].edges, Raises(rank)) && EdgesIn(nodes, nodes[h.node].edges);
    FollowIs(nodes, nodes[h.node].edges[h.edge]);
    if a < b - 1 {
      StopsClimb(nodes, w, a, b - 1, rank);
    }
  }

  /** With a growing expander the walk of SELECT passes no node twice. */
  lemma {:induction false} NoNodeTwice(s: Setup, run: seq<State>, n: nat, a: nat, b: nat, rank: Rank)
    requires GrowingExpander(s, rank) && IsRun(s, run) && n < |run|
    ensures run[n].nodes != []
    ensures var nodes := run[n].nodes;
            var w := Select(s, nodes, 0, |nodes|);
            w.Some? && a < b <= |w.value.path| ==> Stop(w.value, a) != Stop(w.value, b)
  {
    hide ExpanderWithin, Within, Table, Linked, Sound, Select, Stop;
    var nodes := run[n].nodes;
    RunWithin(s, run, n, Raises(rank));
    RunIsSound(s, run, n);
    SoundTable(s, run[n]);
    SelectIsLinked(s, nodes, 0, |nodes|);
    var w := Select(s, nodes, 0, |nodes|);
    if w.Some? && a < b <= |w.value.path| {
      StopsClimb(nodes, w.value, a, b, rank);
    }
  }

  /** Helper: the table once the root has an edge to itself. */
  lemma {:induction false} SelfEdgeTable(p: Plan, library: Option<Library>)
    requires Depth(p) <= MAX_PLAN_DEPTH
    ensures Grown([FreshNode(p)], 0, [(SubstituteLeaf([], p), 1.0)], library)
         == [Node(p, 0, 0.0, [Edge(SubstituteLeaf([], p), p, 1.0, 0, 0.0)], false)]
  {
    hide Depth;
    var action, start := SubstituteLeaf([], p), [FreshNode(p)];
    var props := [(action, 1.0)];
    assert ApplyAction(p, action, library) == Ok(p);
    assert start[..0] == [] && IndexOf(start, p) == 0;
    assert props[..0] == [] && Populate(start, 0, [], library) == start;
    assert [] + [Edge(action, p, 1.0, 0, 0.0)] == [Edge(action, p, 1.0, 0, 0.0)];
  }

  lemma {:induction false} SelfEdgeGoesRound(s: Setup, nodes: seq<Node>, p: Plan, steps: nat)
    requires |nodes| == 1 && nodes[0].plan == p && !nodes[0].isTerminal && |nodes[0].edges| == 1
    requires nodes[0].edges[0].child == p
    ensures Select(s, nodes, 0, steps).None?
    decreases steps
  {
    hide Puct;
    assert nodes[..0] == [] && IndexOf(nodes, p) == 0;
    if steps > 0 {
      SelfEdgeGoesRound(s, nodes, p, steps - 1);
    }
  }

  /** A SubstituteLeaf that puts the root back where it was gives the root an edge to itself, and the
      second SELECT never ends. */
  lemma {:induction false} SelfEdgeHangs(s: Setup)
    requires s.config.maxIter >= 2 && s.config.maxUniquePlans >= 2 && s.config.regretThreshold.None?
    requires Depth(s.initial) <= MAX_PLAN_DEPTH && s.evaluate(s.initial, 0).Score?
    requires s.propose(s.initial, s.config.expanderK, 0) == Some([(SubstituteLeaf([], s.initial), 1.0)])
    ensures Until(s, Start(s)) == Hangs
  {
    hide Depth, Puct, Grown, ApplyAction;
    var p := s.initial;
    var action := SubstituteLeaf([], p);
    var props := [(action, 1.0)];
    var score := s.evaluate(p, 0).value;
    assert props[..0] == [] && SumPriors(props) == 1.0;
    var start := [FreshNode(p)];
    var one := [Node(p, 0, 0.0, [Edge(action, p, 1.0, 0, 0.0)], false)];
    SelfEdgeTable(p, s.library);
    assert Select(s, start, 0, 1) == Some(Walk([], 0));
    var two := [Node(p, 1, 0.0 + score, [Edge(action, p, 1.0, 0, 0.0)], false)];
    assert BackLeaf(BackAlong(one, [], score), 0, score) == two;
    assert Stops(s, Start(s)) == None;
    var st := Turn(s, Start(s)).state;
    assert st.nodes == two && st.iter == 1 && st.attempts == 1 && st.failures == 0;
    SelfEdgeGoesRound(s, two, p, 1);
  }

  // ---- How often the expander and the evaluator are asked --------------------------------------------------

  ghost predicate NoDuplicates(ps: seq<Plan>) {
    forall i, j :: 0 <= i < j < |ps| ==> ps[i] != ps[j]
  }

  /** A node has been expanded: it has children, or is known to have none. */
  predicate Settled(n: Node) {
    n.edges != [] || n.isTerminal
  }

  /** The bookkeeping between two turns: exactly the settled nodes' plans are in the expander cache,
      each asked about once; each cached score was one successful call of the evaluator, and every
      backup carried the score cached for its leaf; and only the very first call may stand failed
      with none that succeeded. */
  ghost predicate Kept(st: State) {
    && (forall i :: 0 <= i < |st.nodes| ==> (Settled(st.nodes[i]) <==> st.nodes[i].plan in st.proposals))
    && (forall p :: p in st.proposals ==> InTable(st.nodes, p))
    && NoDuplicates(st.asked) && (forall p :: p in st.asked <==> p in st.proposals)
    && st.attempts == |st.scores| + st.failures
    && (forall b :: b in st.backups ==> b.leaf in st.scores && st.scores[b.leaf] == b.score)
    && (st.attempts == st.failures ==> st.attempts <= 1)
  }

  /** Expanding node `i` settles it and no other node. */
  ghost predicate SettlesOnly(a: seq<Node>, i: nat, b: seq<Node>)
    requires i < |a|
  {
    && |a| <= |b| && (forall k :: 0 <= k < |a| ==> b[k].plan == a[k].plan && (k != i ==> b[k] == a[k]))
    && (forall k :: |a| <= k < |b| ==> !Settled(b[k]))
  }

  lemma {:induction false} PopulateSettlesOnly(nodes: seq<Node>, i: nat, props: seq<Proposal>, library: Option<Library>)
    requires i < |nodes|
    ensures SettlesOnly(nodes, i, Populate(nodes, i, props, library))
    decreases |props|
  {
    hide ApplyAction, HasAction, IndexOf;
    if props != [] {
      PopulateSettlesOnly(nodes, i, props[..|props| - 1], library);
    }
  }

  lemma {:induction false} GrownSettles(nodes: seq<Node>, i: nat, props: seq<Proposal>, library: Option<Library>)
    requires i < |nodes|
    ensures SettlesOnly(nodes, i, Grown(nodes, i, props, library)) && Settled(Grown(nodes, i, props, library)[i])
  {
    hide Populate;
    PopulateSettlesOnly(nodes, i, props, library);
  }

  /** The plan of an unsettled node was never asked about, so EXPAND always asks anew. */
  lemma {:induction false} ExpandKeeps(s: Setup, st: State, i: nat)
    requires Table(st.nodes) && Kept(st) && i < |st.nodes| && IsLeaf(st.nodes[i]) && Expanded(s, st, i).Ok?
    ensures Kept(Expanded(s, st, i).value)
  {
    hide Grown, Table, InTable, PriorsOff;
    var st', plan := Expanded(s, st, i).value, st.nodes[i].plan;
    if !Settled(st.nodes[i]) {
      var props := s.propose(plan, s.config.expanderK, |st.asked|).value;
      GrownSettles(st.nodes, i, props, s.library);
      GrownKeepsTable(st.nodes, i, props, s.library);
      TableIsDistinct(st'.nodes);
      SettledIffCached(st, i, st');
      forall p | p in st'.proposals ensures InTable(st'.nodes, p) {
        if p == plan {
          Listed(st'.nodes, i);
        } else {
          InTableStays(st.nodes, st'.nodes, p);
        }
      }
    }
  }

  lemma {:induction false} SettledIffCached(st: State, i: nat, st': State)
    requires i < |st.nodes| && Kept(st) && SettlesOnly(st.nodes, i, st'.nodes) && Settled(st'.nodes[i])
    requires Distinct(st'.nodes)
    requires forall p :: p in st'.proposals <==> p in st.proposals || p == st.nodes[i].plan
    ensures forall k :: 0 <= k < |st'.nodes| ==> (Settled(st'.nodes[k]) <==> st'.nodes[k].plan in st'.proposals)
  {
    forall k | |st.nodes| <= k < |st'.nodes| ensures !InTable(st.nodes, st'.nodes[k].plan) {
      assert forall j :: 0 <= j < |st.nodes| ==> st.nodes[j].plan == st'.nodes[j].plan;
    }
  }

  /** BACKUP settles and unsettles nothing. */
  ghost predicate SameSettled(a: seq<Node>, b: seq<Node>) {
    |a| == |b| && forall k :: 0 <= k < |a| ==> a[k].plan == b[k].plan && (Settled(a[k]) <==> Settled(b[k]))
  }

  lemma {:induction false} BackAlongSettled(nodes: seq<Node>, path: seq<Hop>, score: real)
    ensures SameSettled(nodes, BackAlong(nodes, path, score))
    decreases |path|
  {
    if path != [] {
      BackAlongSettled(nodes, path[..|path| - 1], score);
    }
  }

  lemma {:induction false} BackupSettled(nodes: seq<Node>, w: Walk, score: real)
    requires w.leaf < |nodes|
    ensures SameSettled(nodes, BackLeaf(BackAlong(nodes, w.path, score), w.leaf, score))
  {
    hide BackAlong;
    BackAlongSettled(nodes, w.path, score);
  }

  lemma {:induction false} BackedUpKeeps(st: State, w: Walk, score: real)
    requires Kept(st) && w.leaf < |st.nodes| && st.attempts > st.failures
    requires st.nodes[w.leaf].plan in st.scores && st.scores[st.nodes[w.leaf].plan] == score
    ensures Kept(BackedUp(st, w, score))
  {
    hide BackAlong, BackLeaf, NoDuplicates, InTable, Settled;
    var st' := BackedUp(st, w, score);
    BackupSettled(st.nodes, w, score);
    forall p | p in st.proposals ensures InTable(st'.nodes, p) {
      InTableStays(st.nodes, st'.nodes, p);
    }
  }

  lemma {:induction false} ScoredKeeps(st: State, plan: Plan, score: real)
    requires Kept(st) && plan !in st.scores
    ensures Kept(st.(attempts := st.attempts + 1, scores := st.scores[plan := score]))
  {
    hide InTable, Settled, NoDuplicates;
    assert |st.scores[plan := score]| == |st.scores| + 1;
  }

  lemma {:induction false} FailedKeeps(st: State)
    requires Kept(st) && (st.attempts == 0 || st.attempts > st.failures)
    ensures Kept(st.(attempts := st.attempts + 1, failures := st.failures + 1, iter := st.iter + 1))
  {
    hide InTable, Settled, NoDuplicates;
  }

  lemma {:induction false} Counted(st: State)
    requires Kept(st)
    ensures st.attempts == |st.scores| + st.failures
  {}

  lemma {:induction false} EvaluatedKeeps(s: Setup, st: State, w: Walk)
    requires Kept(st) && w.leaf < |st.nodes| && (st.attempts == 0 || st.attempts > st.failures)
    ensures Kept(Evaluated(s, st, w))
  {
    hide BackedUp, Kept;
    var plan := st.nodes[w.leaf].plan;
    Counted(st);
    if plan in st.scores {
      assert |st.scores| > 0;
      BackedUpKeeps(st, w, st.scores[plan]);
    } else if s.evaluate(plan, st.attempts).Score? {
      var x := s.evaluate(plan, st.attempts).value;
      ScoredKeeps(st, plan, x);
      BackedUpKeeps(st.(attempts := st.attempts + 1, scores := st.scores[plan := x]), w, x);
    } else {
      FailedKeeps(st);
    }
  }

  /** In every state the search reaches: the expander was asked at most once about each plan, and its
      cache is never read; the evaluator succeeded at most once on each plan. */
  lemma {:induction false} AskedOnce(s: Setup, run: seq<State>, n: nat)
    requires IsRun(s, run) && n < |run|
    ensures Kept(run[n])
  {
    hide Expanded, Evaluated, Select, Table, StreakAfter, Sound;
    if n == 0 {
      StartKept(s);
    } else {
      AskedOnce(s, run, n - 1);
      RunIsSound(s, run, n - 1);
      SoundTable(s, run[n - 1]);
      assert StepAt(s, run, n);
      var st := run[n - 1];
      var w := Select(s, st.nodes, 0, |st.nodes|).value;
      var st1 := st.(streak := StreakAfter(s, st));
      ExpandKeeps(s, st1, w.leaf);
      ExpandKeepsScores(s, st1, w.leaf);
      EvaluatedKeeps(s, Expanded(s, st1, w.leaf).value, w);
    }
  }

  lemma {:induction false} StartKept(s: Setup)
    ensures Kept(Start(s))
  {}

  /** The search gives up for failed evaluations only on the very first one: however many the
      warning counts, it is always one failure over one attempt, and no backup was made. */
  lemma {:induction false} GivesUpOnTheFirst(s: Setup, run: seq<State>, n: nat)
    requires IsRun(s, run) && n < |run| && run[n].nodes != [] && Stops(s, run[n]) == Some(AllEvaluationsFailed)
    ensures var st := run[n]; st.attempts == 1 && st.failures == 1 && st.scores == map[] && st.backups == []
  {
    hide Kept, IsRun, StreakAfter;
    AskedOnce(s, run, n);
    OnlyFailures(run[n]);
  }

  lemma {:induction false} OnlyFailures(st: State)
    requires Kept(st) && st.attempts > 0 && st.attempts == st.failures
    ensures st.attempts == 1 && st.scores == map[] && st.backups == []
  {
    if st.backups != [] {
      BackupsNeedScores(st, st.backups[0]);
    }
  }

  lemma {:induction false} BackupsNeedScores(st: State, b: Arrival)
    requires Kept(st) && b in st.backups
    ensures |st.scores| > 0
  {
    assert b.leaf in st.scores;
  }
}
