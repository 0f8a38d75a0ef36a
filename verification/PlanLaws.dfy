/** Where the plan actions put what they add, and which ones are rejected (src/persistence/plan/_mcts.py:115-253). */
module PlanLaws {
  import opened Wrappers
  import opened Plans

  // ---- Paths -----------------------------------------------------------------------------

  /** A path leads where its parts lead one after the other, a single index to that child. */
  lemma {:induction false} ResolveConcat(p: Plan, a: seq<int>, b: seq<int>)
    ensures Resolve(p, a + b) == match Resolve(p, a) case None => None case Some(q) => Resolve(q, b)
    decreases |a|
  {
    if a == [] {
      assert a + b == b;
    } else {
      assert (a + b)[1..] == a[1..] + b && (a + b)[0] == a[0];
      if 0 <= a[0] < |p.children| {
        ResolveConcat(p.children[a[0]], a[1..], b);
      }
    }
  }

  lemma {:induction false} ResolveChild(p: Plan, i: int)
    ensures Resolve(p, [i]) == if 0 <= i < |p.children| then Some(p.children[i]) else None
    ensures Resolve(p, []) == Some(p)
  {
    if 0 <= i < |p.children| {
      assert Resolve(p.children[i], [i][1..]) == Some(p.children[i]);
    }
  }

  /** Neither path leads through the other's end. */
  predicate Apart(a: seq<int>, b: seq<int>) {
    exists k :: 0 <= k < |a| && k < |b| && a[k] != b[k]
  }

  /** A replacement leaves every subtree off its path where it was. */
  lemma {:induction false} ReplaceLeavesOthers(p: Plan, path: seq<int>, r: Plan, other: seq<int>)
    requires ReplaceAt(p, path, r).Some? && Apart(path, other)
    ensures Resolve(ReplaceAt(p, path, r).value, other) == Resolve(p, other)
    decreases |path|
  {
    var i, q := path[0], ReplaceAt(p, path, r).value;
    var c := ReplaceAt(p.children[i], path[1..], r).value;
    assert |q.children| == |p.children| && q.children[i] == c;
    assert forall j :: 0 <= j < |p.children| && j != i ==> q.children[j] == p.children[j];
    if other[0] == i {
      var k :| 0 <= k < |path| && k < |other| && path[k] != other[k];
      assert path[1..][k - 1] != other[1..][k - 1];
      ReplaceLeavesOthers(p.children[i], path[1..], r, other[1..]);
    }
  }

  /** And it leaves the nodes on its path their tags, attributes and number of children. */
  lemma {:induction false} ReplaceKeepsSpine(p: Plan, path: seq<int>, r: Plan, k: nat)
    requires ReplaceAt(p, path, r).Some? && k < |path|
    ensures var q := ReplaceAt(p, path, r).value;
            && Resolve(p, path[..k]).Some? && Resolve(q, path[..k]).Some?
            && Resolve(q, path[..k]).value.tag == Resolve(p, path[..k]).value.tag
            && Resolve(q, path[..k]).value.attrs == Resolve(p, path[..k]).value.attrs
            && |Resolve(q, path[..k]).value.children| == |Resolve(p, path[..k]).value.children|
    decreases |path|
  {
    var i, q := path[0], ReplaceAt(p, path, r).value;
    assert |q.children| == |p.children|;
    if k > 0 {
      assert path[..k][0] == i && path[..k][1..] == path[1..][..k - 1];
      ReplaceKeepsSpine(p.children[i], path[1..], r, k - 1);
    }
  }

  // ---- Depth and content ---------------------------------------------------------------------

  lemma {:induction false} DeepestChild(ps: seq<Plan>)
    ensures forall i :: 0 <= i < |ps| ==> Depth(ps[i]) <= DepthAll(ps)
    ensures ps == [] ==> DepthAll(ps) == 0
    ensures ps != [] ==> exists i :: 0 <= i < |ps| && Depth(ps[i]) == DepthAll(ps)
    decreases |ps|
  {
    hide Depth;
    if ps != [] {
      DeepestChild(ps[1..]);
      assert forall i :: 0 < i < |ps| ==> ps[i] == ps[1..][i - 1];
      if Depth(ps[0]) <= DepthAll(ps[1..]) && |ps| > 1 {
        var i :| 0 <= i < |ps[1..]| && Depth(ps[1..][i]) == DepthAll(ps[1..]);
        assert Depth(ps[i + 1]) == DepthAll(ps);
      }
    }
  }

  /** No path into a plan is as long as its depth. */
  lemma {:induction false} PathsAreShorter(p: Plan, path: seq<int>)
    requires Resolve(p, path).Some?
    ensures |path| < Depth(p)
    decreases |path|
  {
    DeepestChild(p.children);
    if path != [] {
      PathsAreShorter(p.children[path[0]], path[1..]);
    }
  }

  /** And some path is but one shorter: the depth is the number of nodes on the longest path. */
  lemma {:induction false} LongestPath(p: Plan) returns (path: seq<int>)
    ensures Resolve(p, path).Some? && |path| + 1 == Depth(p)
    decreases p
  {
    DeepestChild(p.children);
    path := [];
    if p.children != [] {
      var i :| 0 <= i < |p.children| && Depth(p.children[i]) == DepthAll(p.children);
      var rest := LongestPath(p.children[i]);
      path := [i] + rest;
      assert path[1..] == rest;
    }
  }

  lemma {:induction false} SubtreesOfChildren(ps: seq<Plan>, q: Plan)
    ensures q in SubtreesOfAll(ps) <==> exists i :: 0 <= i < |ps| && q in Subtrees(ps[i])
    decreases |ps|
  {
    hide Subtrees;
    if ps != [] {
      SubtreesOfChildren(ps[1..], q);
      assert forall i :: 0 < i < |ps| ==> ps[i] == ps[1..][i - 1];
      if q in SubtreesOfAll(ps[1..]) {
        var i :| 0 <= i < |ps[1..]| && q in Subtrees(ps[1..][i]);
        assert q in Subtrees(ps[i + 1]);
      }
    }
  }

  ghost predicate Reaches(p: Plan, q: Plan) {
    exists path :: Resolve(p, path) == Some(q)
  }

  /** The subtrees of a plan are what the paths into it lead to. */
  lemma {:induction false} SubtreesAreReached(p: Plan, q: Plan)
    ensures q in Subtrees(p) <==> Reaches(p, q)
    decreases p
  {
    SubtreesOfChildren(p.children, q);
    if q == p {
      assert Resolve(p, []) == Some(q);
    } else if q in Subtrees(p) {
      var i :| 0 <= i < |p.children| && q in Subtrees(p.children[i]);
      SubtreesAreReached(p.children[i], q);
      var rest :| Resolve(p.children[i], rest) == Some(q);
      assert ([i] + rest)[1..] == rest;
      assert Resolve(p, [i] + rest) == Some(q);
    }
    if path :| Resolve(p, path) == Some(q) {
      if path != [] {
        assert Resolve(p.children[path[0]], path[1..]) == Some(q);
        SubtreesAreReached(p.children[path[0]], q);
      }
    }
  }

  // ---- What the actions do --------------------------------------------------------------------

  /** `new` is `old` with `child` at position `at`: the children before it stay, those after it move on by one. */
  predicate WithChild(was: Plan, at: int, child: Plan, now: Plan) {
    && now.tag == was.tag && now.attrs == was.attrs && |now.children| == |was.children| + 1
    && 0 <= at <= |was.children| && now.children[at] == child
    && (forall i :: 0 <= i < at ==> now.children[i] == was.children[i])
    && (forall i :: at <= i < |was.children| ==> now.children[i + 1] == was.children[i])
  }

  /** Only the node at `path` differs: putting the old one back gives the old plan. */
  predicate ChangedAt(p: Plan, path: seq<int>, was: Plan, now: Plan, q: Plan) {
    Resolve(p, path) == Some(was) && Resolve(q, path) == Some(now) && ReplaceAt(q, path, was) == Some(p)
  }

  /** An AddStep is accepted exactly when its target is a node with such a position and the result is no deeper
      than 32; it inserts the new child there and changes nothing else. */
  lemma {:induction false} AddedStepStands(p: Plan, target: seq<int>, at: int, child: Plan, library: Option<Library>)
    ensures var r := ApplyAction(p, AddStep(target, at, child), library);
            match Resolve(p, target)
            case None => r == Err(PlanConstructionRaised)
            case Some(was) =>
              && (r == Err(PlanConstructionRaised) <==> !(0 <= at <= |was.children|))
              && (0 <= at <= |was.children| ==>
                    exists q: Plan, now :: ChangedAt(p, target, was, now, q) && WithChild(was, at, child, now)
                                           && r == if Depth(q) <= 32 then Ok(q) else Err(PlanTooDeep))
  {
    hide Depth;
    if Resolve(p, target).Some? {
      var was := Resolve(p, target).value;
      if 0 <= at <= |was.children| {
        var now := was.(children := was.children[..at] + [child] + was.children[at..]);
        ReplaceAtIsLocal(p, target, now);
        assert WithChild(was, at, child, now);
        assert ChangedAt(p, target, was, now, ReplaceAt(p, target, now).value);
      }
    }
  }

  /** A ComposeWithSkill names a registered skill no deeper than 16 that does not contain the plan; it puts the
      skill in the place of its target, the target as the skill's new first child, and changes nothing else. */
  lemma {:induction false} ComposedSkillStands(p: Plan, target: seq<int>, skillId: string, library: Option<Library>)
    ensures var r := ApplyAction(p, ComposeWithSkill(target, skillId), library);
            if library == None || skillId !in library.value then r == Err(SkillNotRegistered)
            else
              var skill := library.value[skillId];
              if Depth(skill) > 16 then r == Err(PlanTooDeep)
              else if Reaches(skill, p) then r == Err(ComposeCreatesCycle)
              else
                match Resolve(p, target)
                case None => r == Err(PlanConstructionRaised)
                case Some(was) =>
                  exists q: Plan, now :: ChangedAt(p, target, was, now, q) && WithChild(skill, 0, was, now)
                                         && r == if Depth(q) <= 32 then Ok(q) else Err(PlanTooDeep)
  {
    hide Depth, Subtrees, Reaches;
    if library.Some? && skillId in library.value {
      var skill := library.value[skillId];
      SubtreesAreReached(skill, p);
      if Resolve(p, target).Some? {
        var was := Resolve(p, target).value;
        var now := skill.(children := [was] + skill.children);
        ReplaceAtIsLocal(p, target, now);
        assert WithChild(skill, 0, was, now);
        assert ChangedAt(p, target, was, now, ReplaceAt(p, target, now).value);
      }
    }
  }

  /** A SubstituteLeaf puts its leaf in the place of its target, wherever there is one. */
  lemma {:induction false} SubstitutedLeafStands(p: Plan, target: seq<int>, leaf: Plan, library: Option<Library>)
    ensures var r := ApplyAction(p, SubstituteLeaf(target, leaf), library);
            match Resolve(p, target)
            case None => r == Err(PlanConstructionRaised)
            case Some(was) =>
              exists q: Plan :: ChangedAt(p, target, was, leaf, q)
                                && r == if Depth(q) <= 32 then Ok(q) else Err(PlanTooDeep)
  {
    hide Depth;
    ReplaceAtIsLocal(p, target, leaf);
    if Resolve(p, target).Some? {
      assert ChangedAt(p, target, Resolve(p, target).value, leaf, ReplaceAt(p, target, leaf).value);
    }
  }
}
