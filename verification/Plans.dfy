/** Plan trees and the actions of the plan search (src/persistence/plan/_ast.py and the first
    part of src/persistence/plan/_mcts.py). */
module Plans {
  import opened Wrappers

  /** A frozen plan node. Its content id stands for the node itself. */
  datatype Plan = Plan(tag: string, attrs: map<string, string>, children: seq<Plan>)

  const MAX_PLAN_DEPTH: nat := 32

  /** Number of nodes. */
  function Size(p: Plan): (n: nat)
    ensures n >= 1
    decreases p
  {
    1 + SizeAll(p.children)
  }

  function SizeAll(ps: seq<Plan>): nat
    decreases ps
  {
    if ps == [] then 0 else Size(ps[0]) + SizeAll(ps[1..])
  }

  /** `_plan_depth`: a leaf has depth 1. */
  function Depth(p: Plan): nat
    decreases p
  {
    1 + DepthAll(p.children)
  }

  function DepthAll(ps: seq<Plan>): nat
    decreases ps
  {
    if ps == [] then 0
    else
      var d, rest := Depth(ps[0]), DepthAll(ps[1..]);
      if d > rest then d else rest
  }

  /** `_collect_node_ids`. */
  function Subtrees(p: Plan): set<Plan>
    decreases p
  {
    {p} + SubtreesOfAll(p.children)
  }

  function SubtreesOfAll(ps: seq<Plan>): set<Plan>
    decreases ps
  {
    if ps == [] then {} else Subtrees(ps[0]) + SubtreesOfAll(ps[1..])
  }

  /** `_resolve_path`; None is the IndexError. */
  function Resolve(p: Plan, path: seq<int>): Option<Plan>
    decreases |path|
  {
    if path == [] then Some(p)
    else if path[0] < 0 || path[0] >= |p.children| then None
    else Resolve(p.children[path[0]], path[1..])
  }

  /** `_replace_at_path`. */
  function ReplaceAt(p: Plan, path: seq<int>, r: Plan): Option<Plan>
    decreases |path|
  {
    if path == [] then Some(r)
    else if path[0] < 0 || path[0] >= |p.children| then None
    else
      match ReplaceAt(p.children[path[0]], path[1..], r)
      case None => None
      case Some(c) => Some(p.(children := p.children[..path[0]] + [c] + p.children[path[0] + 1..]))
  }

  datatype Action = SubstituteLeaf(target: seq<int>, newLeaf: Plan)
                  | AddStep(target: seq<int>, at: int, newChild: Plan)
                  | ComposeWithSkill(target: seq<int>, skillId: string)

  /** The reasons a proposal is rejected for. */
  datatype Reject = PlanTooDeep | ComposeCreatesCycle | SkillNotRegistered | PlanConstructionRaised

  type Library = map<string, Plan>

  function Rebuilt(p: Option<Plan>): Result<Plan, Reject> {
    match p
    case Some(q) => Ok(q)
    case None => Err(PlanConstructionRaised)
  }

  function ApplyAddStep(p: Plan, target: seq<int>, at: int, child: Plan): Result<Plan, Reject> {
    match Resolve(p, target)
    case None => Err(PlanConstructionRaised)
    case Some(parent) =>
      if at < 0 || at > |parent.children| then Err(PlanConstructionRaised)
      else Rebuilt(ReplaceAt(p, target, parent.(children := parent.children[..at] + [child] + parent.children[at..])))
  }

  function ApplyCompose(p: Plan, target: seq<int>, skillId: string, library: Option<Library>): Result<Plan, Reject> {
    if library.None? || skillId !in library.value then Err(SkillNotRegistered)
    else
      var skill := library.value[skillId];
      if Depth(skill) > MAX_PLAN_DEPTH / 2 then Err(PlanTooDeep)
      else if p in Subtrees(skill) then Err(ComposeCreatesCycle)
      else
        match Resolve(p, target)
        case None => Err(PlanConstructionRaised)
        case Some(sub) => Rebuilt(ReplaceAt(p, target, skill.(children := [sub] + skill.children)))
  }

  /** `apply_action`. */
  function ApplyAction(p: Plan, a: Action, library: Option<Library>): Result<Plan, Reject> {
    var r := match a
             case SubstituteLeaf(target, newLeaf) => Rebuilt(ReplaceAt(p, target, newLeaf))
             case AddStep(target, at, child) => ApplyAddStep(p, target, at, child)
             case ComposeWithSkill(target, skillId) => ApplyCompose(p, target, skillId, library);
    if r.Ok? && Depth(r.value) > MAX_PLAN_DEPTH then Err(PlanTooDeep) else r
  }

  // ---- What the edits do ------------------------------------------------------------------

  lemma {:induction false} SizeAllConcat(a: seq<Plan>, b: seq<Plan>)
    ensures SizeAll(a + b) == SizeAll(a) + SizeAll(b)
    decreases |a|
  {
    if a == [] {
      assert a + b == b;
    } else {
      assert (a + b)[1..] == a[1..] + b;
      SizeAllConcat(a[1..], b);
    }
  }

  lemma {:induction false} SizeAllSplice(a: seq<Plan>, c: Plan, b: seq<Plan>)
    ensures SizeAll(a + [c] + b) == SizeAll(a) + Size(c) + SizeAll(b)
  {
    hide Size;
    SizeAllConcat(a + [c], b);
    SizeAllConcat(a, [c]);
  }

  /** Replacing succeeds exactly where resolving does, puts the replacement there, changes the size
      by the difference, and is undone by putting the old subtree back. */
  lemma {:induction false} ReplaceAtIsLocal(p: Plan, path: seq<int>, r: Plan)
    ensures ReplaceAt(p, path, r).Some? <==> Resolve(p, path).Some?
    ensures ReplaceAt(p, path, r).Some? ==>
              var q, was := ReplaceAt(p, path, r).value, Resolve(p, path).value;
              && Resolve(q, path) == Some(r)
              && Size(q) + Size(was) == Size(p) + Size(r)
              && ReplaceAt(q, path, was) == Some(p)
    decreases |path|
  {
    if path != [] && 0 <= path[0] < |p.children| {
      var i := path[0];
      ReplaceAtIsLocal(p.children[i], path[1..], r);
      if ReplaceAt(p.children[i], path[1..], r).Some? {
        var c := ReplaceAt(p.children[i], path[1..], r).value;
        var before, after := p.children[..i], p.children[i + 1..];
        var q := p.(children := before + [c] + after);
        assert p.children == before + [p.children[i]] + after;
        SizeAllSplice(before, c, after);
        SizeAllSplice(before, p.children[i], after);
        assert q.children[..i] == before && q.children[i + 1..] == after && q.children[i] == c;
      }
    }
  }

  /** By how much an accepted action grows the plan. */
  function Growth(p: Plan, a: Action, library: Option<Library>): int
    requires ApplyAction(p, a, library).Ok?
  {
    match a
    case SubstituteLeaf(target, newLeaf) =>
      ReplaceAtIsLocal(p, target, newLeaf);
      Size(newLeaf) - Size(Resolve(p, target).value)
    case AddStep(_, _, child) => Size(child)
    case ComposeWithSkill(_, skillId) => Size(library.value[skillId])
  }

  /** An accepted AddStep or ComposeWithSkill always gives a strictly larger plan; a SubstituteLeaf
      does exactly when its new leaf is larger than the subtree it replaces. */
  lemma {:induction false} ActionsGrow(p: Plan, a: Action, library: Option<Library>)
    requires ApplyAction(p, a, library).Ok?
    ensures Size(ApplyAction(p, a, library).value) == Size(p) + Growth(p, a, library)
    ensures !a.SubstituteLeaf? ==> Size(ApplyAction(p, a, library).value) > Size(p)
  {
    hide Depth, Subtrees;
    match a
    case SubstituteLeaf(target, newLeaf) => ReplaceAtIsLocal(p, target, newLeaf);
    case AddStep(target, at, child) =>
      var parent := Resolve(p, target).value;
      var grown := parent.(children := parent.children[..at] + [child] + parent.children[at..]);
      ReplaceAtIsLocal(p, target, grown);
      SizeAllSplice(parent.children[..at], child, parent.children[at..]);
      SizeAllConcat(parent.children[..at], parent.children[at..]);
      assert parent.children == parent.children[..at] + parent.children[at..];
    case ComposeWithSkill(target, skillId) =>
      var skill, sub := library.value[skillId], Resolve(p, target).value;
      var wrapped := skill.(children := [sub] + skill.children);
      ReplaceAtIsLocal(p, target, wrapped);
      SizeAllConcat([sub], skill.children);
  }
}
