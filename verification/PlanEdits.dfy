/** Structural plan edits (src/persistence/plan/_edit.py). A step id is a content address, so it stands for the node. */
module PlanEdits {
  import opened Wrappers
  import opened Plans

  /** The children already walked, before those that are left. */
  function Behind(done: seq<Plan>, rest: Option<seq<Plan>>): Option<seq<Plan>> {
    match rest
    case None => None
    case Some(cs) => Some(done + cs)
  }

  lemma {:induction false} BehindNothing(rest: Option<seq<Plan>>)
    ensures Behind([], rest) == rest
  {
    if rest.Some? {
      assert [] + rest.value == rest.value;
    }
  }

  lemma {:induction false} Regroup(done: seq<Plan>, left: seq<Plan>, rest: Option<seq<Plan>>)
    requires left != []
    ensures Behind(done, Behind([left[0]], rest)) == Behind(done + [left[0]], rest)
    ensures forall c :: done + ([c] + left[1..]) == done + [c] + left[1..]
    ensures done + left == done + [left[0]] + left[1..]
  {
    if rest.Some? {
      assert done + ([left[0]] + rest.value) == done + [left[0]] + rest.value;
    }
    assert left == [left[0]] + left[1..];
  }

  /** `_replace_first` with the builder that puts `novel` in: the first match in pre-order, root first. */
  function ReplaceFirst(p: Plan, step: Plan, novel: Plan): Option<Plan>
    decreases p
  {
    if p == step then Some(novel)
    else
      match ReplaceFirstIn(p.children, step, novel)
      case None => None
      case Some(cs) => Some(p.(children := cs))
  }

  function ReplaceFirstIn(ps: seq<Plan>, step: Plan, novel: Plan): Option<seq<Plan>>
    decreases ps
  {
    if ps == [] then None
    else
      match ReplaceFirst(ps[0], step, novel)
      case Some(c) => Some([c] + ps[1..])
      case None => Behind([ps[0]], ReplaceFirstIn(ps[1..], step, novel))
  }

  /** What the three splicers do with the matched step and its siblings. */
  datatype Edit = InsertAfter(novel: Plan) | InsertBefore(novel: Plan) | Delete

  function Splice(siblings: seq<Plan>, i: nat, edit: Edit): seq<Plan>
    requires i < |siblings|
  {
    match edit
    case InsertAfter(novel) => siblings[..i + 1] + [novel] + siblings[i + 1..]
    case InsertBefore(novel) => siblings[..i] + [novel] + siblings[i..]
    case Delete => siblings[..i] + siblings[i + 1..]
  }

  function FirstIn(ps: seq<Plan>, p: Plan): (i: nat)
    ensures i <= |ps| && (i < |ps| ==> ps[i] == p)
    ensures forall j :: 0 <= j < i ==> ps[j] != p
    decreases |ps|
  {
    if ps == [] || ps[0] == p then 0 else 1 + FirstIn(ps[1..], p)
  }

  /** `_splice_first`: the direct children first, then below them, child by child. */
  function SpliceFirst(p: Plan, step: Plan, edit: Edit): Option<Plan>
    decreases p
  {
    var i := FirstIn(p.children, step);
    if i < |p.children| then Some(p.(children := Splice(p.children, i, edit)))
    else
      match SpliceFirstIn(p.children, step, edit)
      case None => None
      case Some(cs) => Some(p.(children := cs))
  }

  function SpliceFirstIn(ps: seq<Plan>, step: Plan, edit: Edit): Option<seq<Plan>>
    decreases ps
  {
    if ps == [] then None
    else
      match SpliceFirst(ps[0], step, edit)
      case Some(c) => Some([c] + ps[1..])
      case None => Behind([ps[0]], SpliceFirstIn(ps[1..], step, edit))
  }

  // ---- The edits themselves ----------------------------------------------------------------

  datatype EditResult = Edited(plan: Plan) | OutsideDosync | StepIdNotFound

  /** The `:plan/edit` audit datom. */
  datatype EditIntent = EditIntent(plan: Plan, step: Plan, before: Plan, after: Plan)

  class Transaction {
    var intents: seq<EditIntent>

    constructor ()
      ensures intents == []
    {
      intents := [];
    }

    method Emit(plan: Plan, step: Plan, before: Plan, after: Plan)
      modifies this
      ensures intents == old(intents) + [EditIntent(plan, step, before, after)]
    {
      intents := intents + [EditIntent(plan, step, before, after)];
    }
  }

  method ReplaceWalk(p: Plan, step: Plan, novel: Plan) returns (r: Option<Plan>)
    ensures r == ReplaceFirst(p, step, novel)
    decreases p
  {
    if p == step {
      return Some(novel);
    }
    var done: seq<Plan>, matched := [], false;
    BehindNothing(ReplaceFirstIn(p.children, step, novel));
    for i := 0 to |p.children|
      invariant ReplaceFirstIn(p.children, step, novel) ==
                if matched then Some(done + p.children[i..])
                else Behind(done, ReplaceFirstIn(p.children[i..], step, novel))
    {
      Regroup(done, p.children[i..], ReplaceFirstIn(p.children[i + 1..], step, novel));
      assert p.children[i..][0] == p.children[i] && p.children[i..][1..] == p.children[i + 1..];
      var child := p.children[i];
      if !matched {
        var c := ReplaceWalk(child, step, novel);
        if c.Some? {
          matched, child := true, c.value;
        }
      }
      done := done + [child];
    }
    if !matched {
      return None;
    }
    assert done + p.children[|p.children|..] == done;
    r := Some(p.(children := done));
  }

  method SpliceWalk(p: Plan, step: Plan, edit: Edit) returns (r: Option<Plan>)
    ensures r == SpliceFirst(p, step, edit)
    decreases p
  {
    for i := 0 to |p.children|
      invariant forall j :: 0 <= j < i ==> p.children[j] != step
    {
      if p.children[i] == step {
        return Some(p.(children := Splice(p.children, i, edit)));
      }
    }
    var done: seq<Plan>, matched := [], false;
    BehindNothing(SpliceFirstIn(p.children, step, edit));
    for i := 0 to |p.children|
      invariant SpliceFirstIn(p.children, step, edit) ==
                if matched then Some(done + p.children[i..])
                else Behind(done, SpliceFirstIn(p.children[i..], step, edit))
    {
      Regroup(done, p.children[i..], SpliceFirstIn(p.children[i + 1..], step, edit));
      assert p.children[i..][0] == p.children[i] && p.children[i..][1..] == p.children[i + 1..];
      var child := p.children[i];
      if !matched {
        var c := SpliceWalk(child, step, edit);
        if c.Some? {
          matched, child := true, c.value;
        }
      }
      done := done + [child];
    }
    if !matched {
      return None;
    }
    assert done + p.children[|p.children|..] == done;
    r := Some(p.(children := done));
  }

  /** `edit_step`. */
  method EditStep(plan: Plan, step: Plan, novel: Plan, tx: Transaction, inDosync: bool) returns (r: EditResult)
    modifies tx
    ensures r == if !inDosync then OutsideDosync
                 else match ReplaceFirst(plan, step, novel)
                      case None => StepIdNotFound
                      case Some(q) => Edited(q)
    ensures tx.intents == if r.Edited? then old(tx.intents) + [EditIntent(plan, step, step, novel)] else old(tx.intents)
  {
    if !inDosync {
      return OutsideDosync;
    }
    var q := ReplaceWalk(plan, step, novel);
    if q.None? {
      return StepIdNotFound;
    }
    tx.Emit(plan, step, step, novel);
    r := Edited(q.value);
  }

  /** `insert_step_after`, `insert_step_before` and `delete_step`. */
  method SpliceStep(plan: Plan, step: Plan, edit: Edit, tx: Transaction, inDosync: bool) returns (r: EditResult)
    modifies tx
    ensures r == if !inDosync then OutsideDosync
                 else match SpliceFirst(plan, step, edit)
                      case None => StepIdNotFound
                      case Some(q) => Edited(q)
    ensures tx.intents ==
            if r.Edited? then old(tx.intents) + [EditIntent(plan, step, plan, r.plan)] else old(tx.intents)
  {
    if !inDosync {
      return OutsideDosync;
    }
    var q := SpliceWalk(plan, step, edit);
    if q.None? {
      return StepIdNotFound;
    }
    tx.Emit(plan, step, plan, q.value);
    r := Edited(q.value);
  }

  // ---- What an edit does to the siblings ------------------------------------------------------------

  /** Sibling by sibling: an insertion puts the new step right after the matched one, or right before it, and keeps the
      siblings in their order; a deletion takes out the matched one and closes the gap. */
  lemma {:induction false} SplicedSiblings(ps: seq<Plan>, i: nat, novel: Plan)
    requires i < |ps|
    ensures var after := Splice(ps, i, InsertAfter(novel));
            && |after| == |ps| + 1 && after[i + 1] == novel
            && after[..i + 1] == ps[..i + 1] && after[i + 2..] == ps[i + 1..]
    ensures var before := Splice(ps, i, InsertBefore(novel));
            && |before| == |ps| + 1 && before[i] == novel && before[..i] == ps[..i] && before[i + 1..] == ps[i..]
    ensures var deleted := Splice(ps, i, Delete);
            |deleted| == |ps| - 1 && deleted[..i] == ps[..i] && deleted[i..] == ps[i + 1..]
  {}

  // ---- Where an edit happens ---------------------------------------------------------------------

  /** Paths in pre-order: a node before what is below it, and children from left to right. */
  predicate NotAfter(a: seq<int>, b: seq<int>) {
    a == [] || (b != [] && (a[0] < b[0] || (a[0] == b[0] && NotAfter(a[1..], b[1..]))))
  }

  /** A step is found exactly when it occurs. */
  lemma {:induction false} ReplaceFinds(p: Plan, step: Plan, novel: Plan)
    ensures ReplaceFirst(p, step, novel).Some? <==> step in Subtrees(p)
    decreases p
  {
    if p != step {
      ReplaceFindsIn(p.children, step, novel);
    }
  }

  lemma {:induction false} ReplaceFindsIn(ps: seq<Plan>, step: Plan, novel: Plan)
    ensures ReplaceFirstIn(ps, step, novel).Some? <==> step in SubtreesOfAll(ps)
    decreases ps
  {
    if ps != [] {
      ReplaceFinds(ps[0], step, novel);
      ReplaceFindsIn(ps[1..], step, novel);
    }
  }

  lemma {:induction false} SpliceFinds(p: Plan, step: Plan, edit: Edit)
    ensures SpliceFirst(p, step, edit).Some? <==> step in SubtreesOfAll(p.children)
    decreases p, 1
  {
    SpliceFindsIn(p.children, step, edit);
    DirectChild(p.children, step);
  }

  lemma {:induction false} DirectChild(ps: seq<Plan>, step: Plan)
    ensures FirstIn(ps, step) < |ps| ==> step in SubtreesOfAll(ps)
    ensures forall i :: 0 <= i < |ps| ==> Subtrees(ps[i]) <= SubtreesOfAll(ps)
    decreases |ps|
  {
    if ps != [] {
      DirectChild(ps[1..], step);
      assert forall i :: 0 < i < |ps| ==> ps[i] == ps[1..][i - 1];
    }
  }

  lemma {:induction false} SpliceFindsIn(ps: seq<Plan>, step: Plan, edit: Edit)
    ensures SpliceFirstIn(ps, step, edit).Some? ==> step in SubtreesOfAll(ps)
    ensures step in SubtreesOfAll(ps) ==> FirstIn(ps, step) < |ps| || SpliceFirstIn(ps, step, edit).Some?
    decreases ps, 0
  {
    if ps != [] {
      SpliceFinds(ps[0], step, edit);
      SpliceFindsIn(ps[1..], step, edit);
      if step in SubtreesOfAll(ps) && step !in SubtreesOfAll(ps[1..]) {
        assert step in Subtrees(ps[0]);
      }
    }
  }

  /** `_replace_first` replaces the first occurrence in pre-order, and nothing else. */
  lemma {:induction false} ReplacesTheFirst(p: Plan, step: Plan, novel: Plan) returns (path: seq<int>)
    requires ReplaceFirst(p, step, novel).Some?
    ensures Resolve(p, path) == Some(step) && ReplaceAt(p, path, novel) == ReplaceFirst(p, step, novel)
    ensures forall other: seq<int> :: Resolve(p, other) == Some(step) ==> NotAfter(path, other)
    decreases p, 1
  {
    if p == step {
      return [];
    }
    var i, rest := FirstMatch(p.children, step, novel);
    path := [i] + rest;
    assert path[1..] == rest;
    forall other: seq<int> | Resolve(p, other) == Some(step) ensures NotAfter(path, other) {
      if other[0] < i {
        ResolveIsSubtree(p.children[other[0]], other[1..]);
      }
    }
  }

  lemma {:induction false} ResolveIsSubtree(p: Plan, path: seq<int>)
    requires Resolve(p, path).Some?
    ensures Resolve(p, path).value in Subtrees(p)
    decreases |path|
  {
    if path != [] {
      ResolveIsSubtree(p.children[path[0]], path[1..]);
      DirectChild(p.children, p);
    }
  }

  lemma {:induction false} FirstMatch(ps: seq<Plan>, step: Plan, novel: Plan) returns (i: nat, rest: seq<int>)
    requires ReplaceFirstIn(ps, step, novel).Some?
    ensures i < |ps| && Resolve(ps[i], rest) == Some(step) && ReplaceAt(ps[i], rest, novel).Some?
    ensures ReplaceFirstIn(ps, step, novel).value == ps[..i] + [ReplaceAt(ps[i], rest, novel).value] + ps[i + 1..]
    ensures forall j :: 0 <= j < i ==> step !in Subtrees(ps[j])
    ensures forall other: seq<int> :: Resolve(ps[i], other) == Some(step) ==> NotAfter(rest, other)
    decreases ps, 0
  {
    ReplaceFinds(ps[0], step, novel);
    if ReplaceFirst(ps[0], step, novel).Some? {
      rest := ReplacesTheFirst(ps[0], step, novel);
      i := 0;
    } else {
      i, rest := FirstMatch(ps[1..], step, novel);
      i := i + 1;
      assert ps[1..][..i - 1] == ps[1..i] && ps[..i] == [ps[0]] + ps[1..i];
    }
  }

  /** `_splice_first` edits the children of the first node in pre-order that has the step as a direct
      child, beside the first child that equals it, and nothing else. */
  lemma {:induction false} SplicesAt(p: Plan, step: Plan, edit: Edit) returns (path: seq<int>)
    requires SpliceFirst(p, step, edit).Some?
    ensures Resolve(p, path).Some?
    ensures var q := Resolve(p, path).value;
            var i := FirstIn(q.children, step);
            && i < |q.children|
            && SpliceFirst(p, step, edit) == ReplaceAt(p, path, q.(children := Splice(q.children, i, edit)))
    ensures forall other: seq<int> :: IsParent(p, other, step) ==> NotAfter(path, other)
    decreases p, 1
  {
    hide Splice;
    if FirstIn(p.children, step) < |p.children| {
      return [];
    }
    var j, rest := SplicesIn(p.children, step, edit);
    path := [j] + rest;
    assert path[1..] == rest;
    forall other: seq<int> | IsParent(p, other, step) ensures NotAfter(path, other) {
      if other != [] {
        assert IsParent(p.children[other[0]], other[1..], step);
        if other[0] < j {
          ParentHasBelow(p.children[other[0]], other[1..], step);
        }
      }
    }
  }

  /** The node at `path` has the step as a direct child. */
  predicate IsParent(p: Plan, path: seq<int>, step: Plan) {
    Resolve(p, path).Some? && step in Resolve(p, path).value.children
  }

  lemma {:induction false} SplicesIn(ps: seq<Plan>, step: Plan, edit: Edit) returns (j: nat, rest: seq<int>)
    requires SpliceFirstIn(ps, step, edit).Some?
    ensures j < |ps| && Resolve(ps[j], rest).Some?
    ensures var q := Resolve(ps[j], rest).value;
            var i := FirstIn(q.children, step);
            && i < |q.children|
            && var spliced := ReplaceAt(ps[j], rest, q.(children := Splice(q.children, i, edit)));
               spliced.Some? && SpliceFirstIn(ps, step, edit).value == ps[..j] + [spliced.value] + ps[j + 1..]
    ensures forall m :: 0 <= m < j ==> step !in SubtreesOfAll(ps[m].children)
    ensures forall other: seq<int> :: IsParent(ps[j], other, step) ==> NotAfter(rest, other)
    decreases ps, 0
  {
    hide Splice, FirstIn, Subtrees, SpliceFirst, Resolve;
    SpliceFinds(ps[0], step, edit);
    if SpliceFirst(ps[0], step, edit).Some? {
      rest := SplicesAt(ps[0], step, edit);
      j := 0;
    } else {
      j, rest := SplicesIn(ps[1..], step, edit);
      j := j + 1;
      var q := Resolve(ps[j], rest).value;
      var spliced := q.(children := Splice(q.children, FirstIn(q.children, step), edit));
      RebuiltBehind(ps, j, ReplaceAt(ps[j], rest, spliced).value);
    }
  }

  lemma {:induction false} RebuiltBehind(ps: seq<Plan>, j: nat, x: Plan)
    requires 0 < j < |ps|
    ensures [ps[0]] + (ps[1..][..j - 1] + [x] + ps[1..][j..]) == ps[..j] + [x] + ps[j + 1..]
  {}

  lemma {:induction false} ParentHasBelow(p: Plan, path: seq<int>, step: Plan)
    requires IsParent(p, path, step)
    ensures step in SubtreesOfAll(p.children)
    decreases |path|
  {
    if path == [] {
      var i :| 0 <= i < |p.children| && p.children[i] == step;
      Occurs(p.children, i);
    } else {
      ParentHasBelow(p.children[path[0]], path[1..], step);
      DirectChild(p.children, step);
      assert Subtrees(p.children[path[0]]) <= SubtreesOfAll(p.children);
    }
  }

  lemma {:induction false} ResolveConcat(p: Plan, a: seq<int>, b: seq<int>)
    ensures Resolve(p, a + b) == match Resolve(p, a) case None => None case Some(q) => Resolve(q, b)
    decreases |a|
  {
    if a == [] {
      assert a + b == b;
    } else {
      assert (a + b)[1..] == a[1..] + b;
      if 0 <= a[0] < |p.children| {
        ResolveConcat(p.children[a[0]], a[1..], b);
      }
    }
  }

  lemma {:induction false} NotAfterBelow(path: seq<int>, a: seq<int>, b: seq<int>)
    ensures NotAfter(path + a, path + b) <==> NotAfter(a, b)
    decreases |path|
  {
    if path == [] {
      assert path + a == a && path + b == b;
    } else {
      assert (path + a)[1..] == path[1..] + a && (path + b)[1..] == path[1..] + b;
      NotAfterBelow(path[1..], a, b);
    }
  }

  lemma {:induction false} NotAfterBeside(path: seq<int>, i: int, parent: seq<int>, k: int)
    requires NotAfter(path, parent) && !(path <= parent)
    ensures NotAfter(path + [i], parent + [k])
    decreases |path|
  {
    assert (path + [i])[0] == path[0] && (parent + [k])[0] == parent[0];
    if path[0] == parent[0] {
      assert (path + [i])[1..] == path[1..] + [i] && (parent + [k])[1..] == parent[1..] + [k];
      assert path == [path[0]] + path[1..] && parent == [parent[0]] + parent[1..];
      NotAfterBeside(path[1..], i, parent[1..], k);
    }
  }

  /** Both walkers are documented as pre-order. The splicing one takes the first occurrence in pre-order
      if and only if no sibling before the child it finds has the step below it (or is the step). */
  lemma {:induction false} SpliceIsPreOrderIff(p: Plan, step: Plan, edit: Edit) returns (path: seq<int>, i: nat)
    requires SpliceFirst(p, step, edit).Some?
    ensures Resolve(p, path).Some? && i < |Resolve(p, path).value.children| && Resolve(p, path + [i]) == Some(step)
    ensures var q := Resolve(p, path).value;
            && SpliceFirst(p, step, edit) == ReplaceAt(p, path, q.(children := Splice(q.children, i, edit)))
            && ((forall other: seq<int> :: Resolve(p, other) == Some(step) ==> NotAfter(path + [i], other)) <==>
                (forall j :: 0 <= j < i ==> step !in Subtrees(q.children[j])))
  {
    hide SpliceFirst, Splice, Subtrees;
    path := SplicesAt(p, step, edit);
    var q := Resolve(p, path).value;
    i := FirstIn(q.children, step);
    ResolveConcat(p, path, [i]);
    assert Resolve(q, [i]) == Some(step);
    if j :| 0 <= j < i && step in Subtrees(q.children[j]) {
      var other := EarlierBelow(p, path, q, j, step);
      NotAfterBelow(path, [i], other[|path|..]);
      assert other == path + other[|path|..];
      assert Resolve(p, other) == Some(step) && !NotAfter(path + [i], other);
    } else {
      forall other: seq<int> | Resolve(p, other) == Some(step) ensures NotAfter(path + [i], other) {
        FoundIsFirst(p, step, edit, path, i, other);
      }
    }
  }

  lemma {:induction false} EarlierBelow(p: Plan, path: seq<int>, q: Plan, j: nat, step: Plan) returns (other: seq<int>)
    requires Resolve(p, path) == Some(q) && j < |q.children| && step in Subtrees(q.children[j])
    ensures Resolve(p, other) == Some(step) && path + [j] <= other
  {
    hide Subtrees;
    ReplaceFinds(q.children[j], step, step);
    var rest := ReplacesTheFirst(q.children[j], step, step);
    other := path + ([j] + rest);
    assert ([j] + rest)[1..] == rest;
    ResolveConcat(p, path, [j] + rest);
    assert other == path + [j] + rest;
  }

  lemma {:induction false} FoundIsFirst(p: Plan, step: Plan, edit: Edit, path: seq<int>, i: nat, other: seq<int>)
    requires SpliceFirst(p, step, edit).Some? && Resolve(p, path).Some? && i < |Resolve(p, path).value.children|
    requires forall j :: 0 <= j < i ==> step !in Subtrees(Resolve(p, path).value.children[j])
    requires forall o: seq<int> :: IsParent(p, o, step) ==> NotAfter(path, o)
    requires Resolve(p, other) == Some(step)
    ensures NotAfter(path + [i], other)
  {
    hide SpliceFirst, Subtrees;
    SpliceFinds(p, step, edit);
    NotBelowItself(p);
    var n := |other| - 1;
    assert other != [] && other == other[..n] + [other[n]];
    ResolveConcat(p, other[..n], [other[n]]);
    assert IsParent(p, other[..n], step);
    if path <= other[..n] {
      var rest := other[|path|..];
      assert other == path + rest;
      ResolveConcat(p, path, rest);
      if rest[0] < i {
        ResolveIsSubtree(Resolve(p, path).value.children[rest[0]], rest[1..]);
      }
      NotAfterBelow(path, [i], rest);
    } else {
      NotAfterBeside(path, i, other[..n], other[n]);
    }
  }

  // ---- Undoing an edit -----------------------------------------------------------------------------

  lemma {:induction false} SubtreesAreSmaller(p: Plan, q: Plan)
    ensures q in Subtrees(p) ==> Size(q) <= Size(p)
    decreases p
  {
    SubtreesOfAllAreSmaller(p.children, q);
  }

  lemma {:induction false} SubtreesOfAllAreSmaller(ps: seq<Plan>, q: Plan)
    ensures q in SubtreesOfAll(ps) ==> Size(q) <= SizeAll(ps)
    decreases ps
  {
    if ps != [] {
      SubtreesAreSmaller(ps[0], q);
      SubtreesOfAllAreSmaller(ps[1..], q);
    }
  }

  /** No plan is a step below itself. */
  lemma {:induction false} NotBelowItself(p: Plan)
    ensures p !in SubtreesOfAll(p.children)
  {
    SubtreesOfAllAreSmaller(p.children, p);
  }

  lemma {:induction false} PutBack(p: Plan, path: seq<int>)
    requires Resolve(p, path).Some?
    ensures ReplaceAt(p, path, Resolve(p, path).value) == Some(p)
    decreases |path|
  {
    if path != [] {
      PutBack(p.children[path[0]], path[1..]);
      assert p.children == p.children[..path[0]] + [p.children[path[0]]] + p.children[path[0] + 1..];
    }
  }

  /** Replacing at one path keeps every node beside it. */
  lemma {:induction false} SameBeside(p: Plan, path: seq<int>, r: Plan, other: seq<int>)
    requires ReplaceAt(p, path, r).Some? && !(path <= other) && !(other <= path)
    ensures Resolve(ReplaceAt(p, path, r).value, other) == Resolve(p, other)
    decreases |other|
  {
    if other[0] == path[0] {
      assert path == [path[0]] + path[1..] && other == [other[0]] + other[1..];
      SameBeside(p.children[path[0]], path[1..], r, other[1..]);
    }
  }

  /** No step lies properly below itself. */
  lemma {:induction false} NotAbove(p: Plan, a: seq<int>, b: seq<int>, step: Plan)
    requires Resolve(p, a) == Some(step) && Resolve(p, b) == Some(step) && a <= b
    ensures a == b
  {
    hide Resolve, SubtreesOfAll;
    var rest := b[|a|..];
    assert b == a + rest;
    ResolveConcat(p, a, rest);
    if rest != [] {
      ResolvesBelow(step, rest, step);
      NotBelowItself(step);
    }
  }

  lemma {:induction false} ResolvesBelow(p: Plan, path: seq<int>, q: Plan)
    requires path != [] && Resolve(p, path) == Some(q)
    ensures q in SubtreesOfAll(p.children)
  {
    ResolveIsSubtree(p.children[path[0]], path[1..]);
    DirectChild(p.children, q);
  }

  /** Two occurrences of a step lie beside each other. */
  lemma {:induction false} FirstIsBeside(q: Plan, a: seq<int>, b: seq<int>, step: Plan)
    requires Resolve(q, a) == Some(step) && Resolve(q, b) == Some(step) && a != b
    ensures !(a <= b) && !(b <= a)
  {
    if a <= b {
      NotAbove(q, a, b, step);
    } else if b <= a {
      NotAbove(q, b, a, step);
    }
  }

  predicate OccursAt(p: Plan, path: seq<int>, step: Plan) {
    Resolve(p, path) == Some(step)
  }

  /** Replacing a step and then replacing it back gives back the plan if and only if the step was replaced by
      itself, or no occurrence of the new step comes before the place of the replacement. */
  lemma {:induction false} ReplacingIsUndoneIff(p: Plan, step: Plan, novel: Plan) returns (path: seq<int>)
    requires ReplaceFirst(p, step, novel).Some?
    ensures OccursAt(p, path, step) && ReplaceAt(p, path, novel) == ReplaceFirst(p, step, novel)
    ensures OccursAt(ReplaceFirst(p, step, novel).value, path, novel)
    ensures var q := ReplaceFirst(p, step, novel).value;
            ReplaceFirst(q, novel, step) == Some(p) <==>
            step == novel || forall other: seq<int> :: OccursAt(q, other, novel) ==> NotAfter(path, other)
  {
    hide ReplaceFirst, ReplaceAt;
    path := ReplacesTheFirst(p, step, novel);
    ReplaceAtIsLocal(p, path, novel);
    var q := ReplaceFirst(p, step, novel).value;
    ReplaceFinds(q, novel, step);
    ResolveIsSubtree(q, path);
    var first := ReplacesTheFirst(q, novel, step);
    assert OccursAt(q, first, novel);
    if step == novel {
      PutBack(p, path);
      PutBack(p, first);
    } else if first != path {
      FirstIsBeside(q, path, first, novel);
      SameBeside(p, path, novel, first);
      ReplaceAtIsLocal(q, first, step);
      if forall other: seq<int> :: OccursAt(q, other, novel) ==> NotAfter(path, other) {
        NotAfterBoth(path, first);
      }
    }
  }

  /** Replacing a step by a subtree that does not occur in the plan, and then that subtree by the
      step, gives back the plan. */
  lemma {:induction false} ReplacingIsUndone(p: Plan, step: Plan, novel: Plan)
    requires ReplaceFirst(p, step, novel).Some? && novel !in Subtrees(p)
    ensures var q := ReplaceFirst(p, step, novel).value;
            ReplaceFirst(q, novel, step) == Some(p) && novel in Subtrees(q)
  {
    hide ReplaceFirst, Resolve, ReplaceAt, Subtrees;
    var q := ReplaceFirst(p, step, novel).value;
    var path := ReplacingIsUndoneIff(p, step, novel);
    ResolveIsSubtree(q, path);
    forall other: seq<int> | OccursAt(q, other, novel) ensures NotAfter(path, other) {
      if path <= other {
        PrefixIsBefore(path, other);
      } else if other <= path {
        NotAbove(q, other, path, novel);
      } else {
        SameBeside(p, path, novel, other);
        ResolveIsSubtree(p, other);
        assert false;
      }
    }
  }

  predicate Inserts(edit: Edit, novel: Plan) {
    edit == InsertAfter(novel) || edit == InsertBefore(novel)
  }

  lemma {:induction false} Occurs(ps: seq<Plan>, i: nat)
    requires i < |ps|
    ensures ps[i] in SubtreesOfAll(ps)
  {
    DirectChild(ps, ps[i]);
  }

  lemma {:induction false} NotAfterBoth(a: seq<int>, b: seq<int>)
    requires NotAfter(a, b) && NotAfter(b, a)
    ensures a == b
    decreases |a|
  {
    if a != [] {
      NotAfterBoth(a[1..], b[1..]);
      assert a == [a[0]] + a[1..] && b == [b[0]] + b[1..];
    }
  }

  /** Replacing at one path keeps the number of children of every node that is not at or below it. */
  lemma {:induction false} SameElsewhere(p: Plan, path: seq<int>, r: Plan, other: seq<int>)
    requires ReplaceAt(p, path, r).Some? && !(path <= other)
    ensures var q := ReplaceAt(p, path, r).value;
            && (Resolve(q, other).Some? <==> Resolve(p, other).Some?)
            && (Resolve(p, other).Some? ==> |Resolve(q, other).value.children| == |Resolve(p, other).value.children|)
    decreases |other|
  {
    if other != [] && other[0] == path[0] {
      assert path == [path[0]] + path[1..] && other == [other[0]] + other[1..];
      SameElsewhere(p.children[path[0]], path[1..], r, other[1..]);
    }
  }

  /** And it makes no such node the parent of a step that `r` has below it. */
  lemma {:induction false} NoNewParents(p: Plan, path: seq<int>, r: Plan, other: seq<int>, step: Plan)
    requires ReplaceAt(p, path, r).Some? && !(path <= other) && step in SubtreesOfAll(r.children)
    requires IsParent(ReplaceAt(p, path, r).value, other, step)
    ensures IsParent(p, other, step)
    decreases |other|
  {
    hide Subtrees, SubtreesOfAll;
    var q, k := ReplaceAt(p, path, r).value, path[0];
    assert q.children == p.children[..k] + [q.children[k]] + p.children[k + 1..];
    if other == [] {
      ReplaceAtIsLocal(p.children[k], path[1..], r);
      BelowReplaced(q.children[k], path[1..], r, step);
      NotBelowItself(step);
    } else if other[0] == k {
      assert path == [k] + path[1..] && other == [k] + other[1..];
      NoNewParents(p.children[k], path[1..], r, other[1..], step);
    }
  }

  lemma {:induction false} BelowReplaced(p: Plan, path: seq<int>, r: Plan, step: Plan)
    requires Resolve(p, path) == Some(r) && step in SubtreesOfAll(r.children)
    ensures step in SubtreesOfAll(p.children)
    decreases |path|
  {
    if path != [] {
      BelowReplaced(p.children[path[0]], path[1..], r, step);
      DirectChild(p.children, step);
      assert Subtrees(p.children[path[0]]) <= SubtreesOfAll(p.children);
    }
  }

  /** Where `InsertAfter` and `InsertBefore` put the new step beside sibling `i`. */
  function Place(edit: Edit, i: nat): nat {
    if edit.InsertAfter? then i + 1 else i
  }

  /** Taking out sibling `k` leaves what taking out the inserted one leaves exactly when all from `k` to it
      are equal. */
  lemma {:induction false} SameRemovalIff(ps: seq<Plan>, i: nat, edit: Edit, novel: Plan, k: nat)
    requires i < |ps| && Inserts(edit, novel) && k <= Place(edit, i) && Splice(ps, i, edit)[k] == novel
    ensures var cs, at := Splice(ps, i, edit), Place(edit, i);
            Splice(cs, k, Delete) == ps <==> forall j :: k <= j <= at ==> cs[j] == novel
  {
    var cs, at := Splice(ps, i, edit), Place(edit, i);
    assert cs == ps[..at] + [novel] + ps[at..];
    var left := Splice(cs, k, Delete);
    if left == ps {
      EqualRun(cs, ps, k, at, novel);
    }
    if forall j :: k <= j <= at ==> cs[j] == novel {
      forall j | 0 <= j < |ps| ensures left[j] == ps[j] {
        if k <= j < at {
          assert cs[j] == cs[j + 1] == novel;
        }
      }
    }
  }

  lemma {:induction false} EqualRun(cs: seq<Plan>, ps: seq<Plan>, k: nat, at: nat, novel: Plan)
    requires k <= at <= |ps| && cs == ps[..at] + [novel] + ps[at..] && cs[..k] + cs[k + 1..] == ps
    ensures forall j :: k <= j <= at ==> cs[j] == novel
    decreases at - k
  {
    if k < at {
      assert cs[k] == ps[k] == (cs[..k] + cs[k + 1..])[k] == cs[k + 1];
      assert cs[..k + 1] + cs[k + 2..] == cs[..k] + [cs[k + 1]] + cs[k + 2..] == ps;
      EqualRun(cs, ps, k + 1, at, novel);
    }
  }

  /** Where an insert puts the new step: at position `at` among the children of the node at `path`. */
  ghost predicate InsertedAt(p: Plan, q: Plan, path: seq<int>, at: nat, novel: Plan) {
    && Resolve(p, path).Some? && at <= |Resolve(p, path).value.children|
    && var was := Resolve(p, path).value;
       ReplaceAt(p, path, was.(children := was.children[..at] + [novel] + was.children[at..])) == Some(q)
       && Resolve(q, path) == Some(was.(children := was.children[..at] + [novel] + was.children[at..]))
  }

  /** Inserting a step and then deleting it gives back the plan if and only if no node before the one the
      step was inserted under has it as a direct child, and all children from the first that equals
      it up to the inserted one do. */
  lemma {:induction false} InsertingIsUndoneIff(p: Plan, step: Plan, edit: Edit, novel: Plan)
    returns (path: seq<int>, at: nat)
    requires Inserts(edit, novel) && SpliceFirst(p, step, edit).Some?
    ensures InsertedAt(p, SpliceFirst(p, step, edit).value, path, at, novel)
    ensures at == Place(edit, FirstIn(Resolve(p, path).value.children, step))
    ensures var q := SpliceFirst(p, step, edit).value;
            var cs := Resolve(q, path).value.children;
            SpliceFirst(q, novel, Delete) == Some(p) <==>
            && (forall other: seq<int> :: IsParent(q, other, novel) ==> NotAfter(path, other))
            && (forall j :: FirstIn(cs, novel) <= j <= at ==> cs[j] == novel)
  {
    hide SpliceFirst, Splice, Resolve, ReplaceAt;
    path := SplicesAt(p, step, edit);
    var was := Resolve(p, path).value;
    var i := FirstIn(was.children, step);
    at := Place(edit, i);
    var q := SpliceFirst(p, step, edit).value;
    SplicedIn(was.children, i, edit, novel);
    var cs := Splice(was.children, i, edit);
    ReplaceAtIsLocal(p, path, was.(children := cs));
    assert cs[at] == novel && IsParent(q, path, novel);
    ParentHasBelow(q, path, novel);
    SpliceFinds(q, novel, Delete);
    var first := SplicesAt(q, novel, Delete);
    DeleteRestoresIff(p, q, path, was, cs, novel, first);
    if first == path {
      SameRemovalIff(was.children, i, edit, novel, FirstIn(cs, novel));
    } else if forall other: seq<int> :: IsParent(q, other, novel) ==> NotAfter(path, other) {
      assert IsParent(q, first, novel);
      NotAfterBoth(path, first);
    }
  }

  lemma {:induction false} SplicedIn(ps: seq<Plan>, i: nat, edit: Edit, novel: Plan)
    requires i < |ps| && Inserts(edit, novel)
    ensures var cs, at := Splice(ps, i, edit), Place(edit, i);
            && cs == ps[..at] + [novel] + ps[at..] && cs[at] == novel && FirstIn(cs, novel) <= at
  {
    var cs, at := Splice(ps, i, edit), Place(edit, i);
    assert cs == ps[..at] + [novel] + ps[at..] && cs[at] == novel;
  }

  /** A delete under the node at `first` restores the plan exactly when that is the node inserted under, and
      its children are those it had. */
  lemma {:induction false} DeleteRestoresIff(p: Plan, q: Plan, path: seq<int>, was: Plan, cs: seq<Plan>, novel: Plan,
                                             first: seq<int>)
    requires Resolve(p, path) == Some(was) && ReplaceAt(p, path, was.(children := cs)) == Some(q)
    requires Resolve(q, path) == Some(was.(children := cs))
    requires Resolve(q, first).Some?
    requires var r := Resolve(q, first).value; FirstIn(r.children, novel) < |r.children|
    requires NotAfter(first, path)
    ensures var r := Resolve(q, first).value;
            ReplaceAt(q, first, r.(children := Splice(r.children, FirstIn(r.children, novel), Delete))) == Some(p) <==>
            first == path && Splice(cs, FirstIn(cs, novel), Delete) == was.children
  {
    hide Resolve, ReplaceAt;
    var r := Resolve(q, first).value;
    var shorter := r.(children := Splice(r.children, FirstIn(r.children, novel), Delete));
    ReplaceAtIsLocal(q, first, shorter);
    ReplaceAtIsLocal(p, path, was.(children := cs));
    if first != path {
      if path <= first {
        PrefixIsBefore(path, first);
        NotAfterBoth(path, first);
      }
      SameElsewhere(p, path, was.(children := cs), first);
    } else if Splice(cs, FirstIn(cs, novel), Delete) == was.children {
      assert shorter == was;
    }
  }

  lemma {:induction false} PrefixIsBefore(a: seq<int>, b: seq<int>)
    requires a <= b
    ensures NotAfter(a, b)
    decreases |a|
  {
    if a != [] {
      PrefixIsBefore(a[1..], b[1..]);
    }
  }

  /** Inserting a step that does not occur in the plan and then deleting it gives back the plan. */
  lemma {:induction false} InsertingIsUndone(p: Plan, step: Plan, edit: Edit, novel: Plan)
    requires Inserts(edit, novel) && SpliceFirst(p, step, edit).Some? && novel !in Subtrees(p)
    ensures var q := SpliceFirst(p, step, edit).value;
            SpliceFirst(q, novel, Delete) == Some(p) && novel in SubtreesOfAll(q.children)
  {
    hide SpliceFirst, Resolve, ReplaceAt, SubtreesOfAll;
    var q := SpliceFirst(p, step, edit).value;
    var path, at := InsertingIsUndoneIff(p, step, edit, novel);
    var cs := Resolve(q, path).value.children;
    assert cs[at] == novel && IsParent(q, path, novel);
    Occurs(cs, at);
    ParentHasBelow(q, path, novel);
    forall other: seq<int> | IsParent(q, other, novel) ensures NotAfter(path, other) {
      if path <= other {
        PrefixIsBefore(path, other);
      } else {
        NoNewParents(p, path, Resolve(q, path).value, other, novel);
        ParentHasBelow(p, other, novel);
        assert false;
      }
    }
    forall j | 0 <= j < at ensures cs[j] != novel {
      if cs[j] == novel {
        assert IsParent(p, path, novel);
        ParentHasBelow(p, path, novel);
        assert false;
      }
    }
  }

  // ---- Where the walkers part -----------------------------------------------------------------------

  /** Both walkers are documented as pre-order, but `_splice_first` prefers a direct child to an
      earlier, deeper step: of two equal steps it deletes the second in pre-order. And where a step occurs
      already, a later delete can remove that occurrence (`InsertingIsUndoneIff` says when). */
  lemma {:induction false} SpliceIsNotPreOrder(t: Plan, u: Plan)
    requires t.children == [] && u.children == [] && t != u
    ensures var group := Plan(":seq", map[], [t]);
            var plan := Plan(":seq", map[], [group, t]);
            && SpliceFirst(plan, t, Delete) == Some(Plan(":seq", map[], [group]))
            && ReplaceFirst(plan, t, u) == Some(Plan(":seq", map[], [Plan(":seq", map[], [u]), t]))
    ensures var plan := Plan(":seq", map[], [t, u]);
            var q := SpliceFirst(plan, u, InsertAfter(t));
            && q == Some(Plan(":seq", map[], [t, u, t]))
            && SpliceFirst(q.value, t, Delete) == Some(Plan(":seq", map[], [u, t]))
  {
    var group := Plan(":seq", map[], [t]);
    var plan := Plan(":seq", map[], [group, t]);
    assert |t.children| != |group.children| && |t.children| != |plan.children|;
    assert plan.children[1..] == [t] && [group, t][..1] + [group, t][2..] == [group];
    assert FirstIn([t], t) == 0 && FirstIn(plan.children, t) == 1;
    assert group.children[1..] == [];
    assert ReplaceFirst(t, t, u) == Some(u);
    assert [u] + [t][1..] == [u];
    assert ReplaceFirstIn([t], t, u) == Some([u]);
    assert ReplaceFirst(group, t, u) == Some(Plan(":seq", map[], [u]));
    assert [Plan(":seq", map[], [u])] + [t] == [Plan(":seq", map[], [u]), t];
    var pair := [t, u];
    assert pair[1..] == [u] && FirstIn([u], u) == 0 && FirstIn(pair, u) == 1;
    assert pair[..2] + [t] + pair[2..] == [t, u, t];
    assert FirstIn([t, u, t], t) == 0 && [t, u, t][..0] + [t, u, t][1..] == [u, t];
  }
}
