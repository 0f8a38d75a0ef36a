/** What record and replay guarantee together (src/persistence/replay/engine.py:1-17). */
module Counterfactuals {
  import opened Wrappers
  import opened Effects
  import opened Engine
  import opened Dpo
  import opened Recordings

  /** Replaying a recording under interventions that leave every action and observation as recorded, in any
      world, succeeds and gives back its outcome: new values of `:state` and `:llm-out` reach no later
      step. Its facts are the recorded ones, but for the fields written and the numbers of the steps
      executed again, which become their positions; so the content digest is reproduced exactly when
      the values written were the recorded ones and the recording had numbered its steps so. */
  lemma {:induction false} InertReproduces(s: Setup, job: Job, id: string, ivs: seq<Intervention>, id': string,
                                           world: World, world': World)
    requires Aligned(s) && RecordUpTo(s, job, |job.obs|, world).Going?
    requires var t := Recorded(job, id, RecordUpTo(s, job, |job.obs|, world));
             Refusal(t, ivs).None? && Inert(t, ByStep(ivs))
    ensures var t, r := Recorded(job, id, RecordUpTo(s, job, |job.obs|, world)),
                        ReplayOf(s, Recorded(job, id, RecordUpTo(s, job, |job.obs|, world)), ivs, [], id', world');
            && r.Ok? && r.value.outcome == t.outcome && |r.value.facts| == |t.facts|
            && (forall k :: 0 <= k < |t.facts| ==> r.value.facts[k] == Restamped(t, ivs, k))
            && (r.value.hash == t.hash <==> forall k :: BranchPoint(ivs) <= k < |t.facts| ==> Unmoved(t, ivs, k))
  {
    hide Exec, BranchPoint, ByStep, RecordStep, ReplayUpTo, OutcomeOf, Unmoved, Restamped;
    var z := RecordUpTo(s, job, |job.obs|, world);
    var t := Recorded(job, id, z);
    RecordingShape(s, job, |job.obs|, world);
    InertTracks(s, job, t, ivs, |t.facts|, z, world, world');
    RestampedIsSame(t, ivs);
  }

  /** Step `k` is one that such a replay gives back as it was. */
  predicate Unmoved(t: Trajectory, ivs: seq<Intervention>, k: nat)
    requires k < |t.facts| && ivs != []
  {
    var at := ByStep(ivs);
    if k in at then FieldOf(at[k].field).Some? && at[k].newValue == Read(t.facts[k], FieldOf(at[k].field).value)
    else t.facts[k].step == k
  }

  lemma {:induction false} RestampedIsSame(t: Trajectory, ivs: seq<Intervention>)
    requires ivs != [] && BranchPoint(ivs) >= 0 && Inert(t, ByStep(ivs))
    ensures RestampedUpTo(t, ivs, |t.facts|) == t.facts <==>
            forall k :: BranchPoint(ivs) <= k < |t.facts| ==> Unmoved(t, ivs, k)
  {
    hide BranchPoint, ByStep, FieldOf, Write, Read, Unmoved, Restamped;
    var r := RestampedUpTo(t, ivs, |t.facts|);
    forall k | 0 <= k < |t.facts|
      ensures r[k] == t.facts[k] <==> k < BranchPoint(ivs) || Unmoved(t, ivs, k)
    {
      StaysIff(t, ivs, k);
    }
  }

  lemma {:induction false} StaysIff(t: Trajectory, ivs: seq<Intervention>, k: nat)
    requires ivs != [] && k < |t.facts| && Inert(t, ByStep(ivs))
    ensures Restamped(t, ivs, k) == t.facts[k] <==> k < BranchPoint(ivs) || Unmoved(t, ivs, k)
  {
    hide BranchPoint, ByStep, FieldOf;
    var at := ByStep(ivs);
    if k in at {
      assert at[k].step == k && at[k] in ivs;
      WritesOne(t.facts[k], FieldOf(at[k].field).value, at[k].newValue);
    }
  }

  /** Hence a replay that changes nothing gives back the facts but for the restamped numbers, and the content
      digest exactly when the steps executed again had been numbered by their positions. */
  lemma {:induction false} NoOpReproduces(s: Setup, job: Job, id: string, ivs: seq<Intervention>, id': string,
                                          world: World, world': World)
    requires Aligned(s) && RecordUpTo(s, job, |job.obs|, world).Going?
    requires var t := Recorded(job, id, RecordUpTo(s, job, |job.obs|, world));
             Refusal(t, ivs).None? && NoOp(t, ByStep(ivs))
    ensures var t, r := Recorded(job, id, RecordUpTo(s, job, |job.obs|, world)),
                        ReplayOf(s, Recorded(job, id, RecordUpTo(s, job, |job.obs|, world)), ivs, [], id', world');
            && r.Ok? && r.value.outcome == t.outcome && |r.value.facts| == |t.facts|
            && (forall k :: 0 <= k < |t.facts| ==>
                  r.value.facts[k] == if k < BranchPoint(ivs) || k in ByStep(ivs) then t.facts[k]
                                      else t.facts[k].(step := k))
            && (r.value.hash == t.hash <==>
                forall k :: BranchPoint(ivs) <= k < |t.facts| && k !in ByStep(ivs) ==> t.facts[k].step == k)
  {
    hide Exec, BranchPoint, ByStep, RecordUpTo, ReplayOf, FieldOf, Read, Write;
    var t := Recorded(job, id, RecordUpTo(s, job, |job.obs|, world));
    InertReproduces(s, job, id, ivs, id', world, world');
    forall k | 0 <= k < |t.facts|
      ensures k in ByStep(ivs) ==> Restamped(t, ivs, k) == t.facts[k]
      ensures Unmoved(t, ivs, k) <==> k in ByStep(ivs) || t.facts[k].step == k
    {
      StaysIff(t, ivs, k);
    }
  }

  // ---- Any interventions -----------------------------------------------------------------------------

  /** What a counterfactual fact at `k` is, whatever the interventions: a copy before the branch point;
      at an intervened step the recorded fact with that one field replaced; else a fresh step on the
      recorded observation. From the branch point on its draws are those of position `k`. */
  ghost predicate Explained(s: Setup, t: Trajectory, ivs: seq<Intervention>, k: nat, f: Fact)
    requires k < |t.facts| && ivs != []
  {
    var at, draws := ByStep(ivs), DrawsAt(s.gen, At(t.seeds, k));
    if k < BranchPoint(ivs) then f == t.facts[k]
    else if k in at then
      FieldOf(at[k].field).Some? && f == Write(t.facts[k], FieldOf(at[k].field).value, at[k].newValue).(draws := draws)
    else f.draws == draws && f.step == k && f.obs == t.facts[k].obs
  }

  lemma {:induction false} ReplayShape(s: Setup, t: Trajectory, ivs: seq<Intervention>, n: nat, world: World)
    requires Aligned(s) && n <= |t.facts| && ivs != [] && t.facts != [] && ReplayUpTo(s, t, ivs, n, world).Going?
    ensures var p := ReplayUpTo(s, t, ivs, n, world);
            |p.facts| == n && p.rngs == At(t.seeds, n) && forall k :: 0 <= k < n ==> Explained(s, t, ivs, k, p.facts[k])
  {
    hide Exec, BranchPoint, ByStep, DrawsAt, FieldOf, Write;
    if n > 0 {
      var p := ReplayUpTo(s, t, ivs, n - 1, world);
      ReplayShape(s, t, ivs, n - 1, world);
      RunAligned(s, p, t.facts[n - 1].obs, world);
    }
  }

  lemma {:induction false} PastShape(s: Setup, t: Trajectory, ivs: seq<Intervention>, extra: seq<Doc>, n: nat,
                                     world: World)
    requires Aligned(s) && n <= |extra| && ivs != [] && t.facts != [] && ReplayPast(s, t, ivs, extra, n, world).Going?
    ensures var p := ReplayPast(s, t, ivs, extra, n, world);
            && |p.facts| == |t.facts| + n && p.rngs == At(t.seeds, |t.facts| + n)
            && (forall k :: 0 <= k < |t.facts| ==> Explained(s, t, ivs, k, p.facts[k]))
            && (forall k :: |t.facts| <= k < |t.facts| + n ==>
                  && p.facts[k].draws == DrawsAt(s.gen, At(t.seeds, k)) && p.facts[k].step == k
                  && p.facts[k].obs == extra[k - |t.facts|])
  {
    hide Exec, BranchPoint, ByStep, DrawsAt, Explained, ReplayUpTo;
    if n == 0 {
      ReplayShape(s, t, ivs, |t.facts|, world);
    } else {
      PastShape(s, t, ivs, extra, n - 1, world);
      RunAligned(s, ReplayPast(s, t, ivs, extra, n - 1, world), extra[n - 1], world);
    }
  }

  /** Whatever the interventions and the extra observations, a counterfactual of a recording draws at
      every recorded step the very numbers the recording drew there, and past the window the
      numbers that follow. */
  lemma {:induction false} DrawsStayAligned(s: Setup, job: Job, id: string, ivs: seq<Intervention>, extra: seq<Doc>,
                                            id': string, world: World, world': World)
    requires Aligned(s) && RecordUpTo(s, job, |job.obs|, world).Going?
    requires ReplayOf(s, Recorded(job, id, RecordUpTo(s, job, |job.obs|, world)), ivs, extra, id', world').Ok?
    ensures var t := Recorded(job, id, RecordUpTo(s, job, |job.obs|, world));
            var c := ReplayOf(s, t, ivs, extra, id', world').value;
            && |c.facts| == |t.facts| + |extra|
            && (forall k :: 0 <= k < |t.facts| ==>
                 c.facts[k].draws == t.facts[k].draws && Explained(s, t, ivs, k, c.facts[k]))
            && (forall k :: |t.facts| <= k < |c.facts| ==> c.facts[k].draws == DrawsAt(s.gen, At(t.seeds, k)))
  {
    RecordingShape(s, job, |job.obs|, world);
    PastShape(s, Recorded(job, id, RecordUpTo(s, job, |job.obs|, world)), ivs, extra, |extra|, world');
  }

  /** What holds of a counterfactual fact at `k` for any agent: a copy before the branch point; at an intervened
      step the recorded fact but for that one field and the draws. */
  ghost predicate Carried(t: Trajectory, ivs: seq<Intervention>, k: nat, f: Fact)
    requires k < |t.facts| && ivs != []
  {
    var at := ByStep(ivs);
    if k < BranchPoint(ivs) then f == t.facts[k]
    else k in at ==>
      FieldOf(at[k].field).Some?
      && f == Write(t.facts[k], FieldOf(at[k].field).value, at[k].newValue).(draws := f.draws)
  }

  lemma {:induction false} WindowCarried(s: Setup, t: Trajectory, ivs: seq<Intervention>, n: nat, world: World)
    requires n <= |t.facts| && ivs != [] && t.facts != [] && ReplayUpTo(s, t, ivs, n, world).Going?
    ensures var p := ReplayUpTo(s, t, ivs, n, world);
            |p.facts| == n && forall k :: 0 <= k < n ==> Carried(t, ivs, k, p.facts[k])
  {
    hide Exec, BranchPoint, ByStep, DrawsAt, FieldOf, Write, Run;
    if n > 0 {
      ReplayRaisedStays(s, t, ivs, n - 1, n, world);
      WindowCarried(s, t, ivs, n - 1, world);
    }
  }

  lemma {:induction false} PastCarried(s: Setup, t: Trajectory, ivs: seq<Intervention>, extra: seq<Doc>, n: nat,
                                       world: World)
    requires n <= |extra| && ivs != [] && t.facts != [] && ReplayPast(s, t, ivs, extra, n, world).Going?
    ensures var p := ReplayPast(s, t, ivs, extra, n, world);
            |p.facts| == |t.facts| + n && forall k :: 0 <= k < |t.facts| ==> Carried(t, ivs, k, p.facts[k])
  {
    hide Exec, BranchPoint, ByStep, Carried, ReplayUpTo, Run;
    if n == 0 {
      WindowCarried(s, t, ivs, |t.facts|, world);
    } else {
      PastRaisedStays(s, t, ivs, extra, n - 1, n, world);
      PastCarried(s, t, ivs, extra, n - 1, world);
    }
  }

  /** A counterfactual and its factual agree before the branch point, whatever the agent does: the divergence
      step is None or not before it, and it is the branch point itself when the action was replaced there.
      A preference pair is therefore refused on the margin alone. */
  lemma {:induction false} OnlyTheMarginDecides(s: Setup, t: Trajectory, ivs: seq<Intervention>, extra: seq<Doc>,
                                                id: string, world: World, threshold: real)
    requires ReplayOf(s, t, ivs, extra, id, world).Ok?
    ensures var c := ReplayOf(s, t, ivs, extra, id, world).value;
            var branch := BranchPoint(ivs);
            && c.branchPoint == Some(branch) && 0 <= branch < |t.facts|
            && PrefixMatches(t, c, branch)
            && (DivergenceStep(t, c).Some? ==> DivergenceStep(t, c).value >= branch)
            && (FieldOf(ByStep(ivs)[branch].field) == Some(Action)
                && ByStep(ivs)[branch].newValue != t.facts[branch].action
                ==> DivergenceStep(t, c) == Some(branch))
            && (ExtractPair(t, c, threshold).None? <==> Margin(t, c) <= threshold)
  {
    hide Exec, ExtractPair, DivergenceStep, PrefixMatches, Margin, ByStep, FieldOf;
    PastCarried(s, t, ivs, extra, |extra|, world);
    var c, branch := ReplayOf(s, t, ivs, extra, id, world).value, BranchPoint(ivs);
    forall k | 0 <= k < branch ensures c.facts[k] == t.facts[k] {
      assert Carried(t, ivs, k, c.facts[k]);
    }
    assert Carried(t, ivs, branch, c.facts[branch]);
    SharedPrefix(t, c, branch, threshold);
  }

  lemma {:induction false} SharedPrefix(t: Trajectory, c: Trajectory, branch: nat, threshold: real)
    requires branch < |t.facts| && branch < |c.facts| && c.branchPoint == Some(branch)
    requires forall k :: 0 <= k < branch ==> c.facts[k] == t.facts[k]
    ensures PrefixMatches(t, c, branch)
    ensures DivergenceStep(t, c).Some? ==> DivergenceStep(t, c).value >= branch
    ensures c.facts[branch].action != t.facts[branch].action ==> DivergenceStep(t, c) == Some(branch)
    ensures ExtractPair(t, c, threshold).None? <==> Margin(t, c) <= threshold
  {}

  // ---- Replaying a counterfactual ----------------------------------------------------------------------

  /** On every path the agent asks for an effect before it returns. */
  ghost predicate Asks(agent: Agent, past: seq<Answer>, fuel: nat)
    decreases fuel
  {
    fuel == 0 ||
    match agent(past)
    case Done(_) => false
    case Draw(_) => forall x: real :: Asks(agent, past + [Number(x)], fuel - 1)
    case Perform(_, _) => true
  }

  ghost predicate AlwaysAsks(s: Setup) {
    forall state: Doc, obs: Doc :: Asks(s.step(state, obs), [], s.moves)
  }

  lemma {:induction false} EmptyCacheStops(agent: Agent, past: seq<Answer>, gen: Generator, h: HandlerState,
                                           r: RngState, world: World, fuel: nat)
    requires Asks(agent, past, fuel) && h == HandlerState(Mode.Replay, map[], [])
    ensures Exec(agent, past, gen, h, r, world, fuel).Stopped?
    decreases fuel
  {
    if fuel > 0 {
      match agent(past)
      case Draw(d) => EmptyCacheStops(agent, past + [Number(Peek(gen, r, d))], gen, h, Advance(r, d), world, fuel - 1);
      case Perform(op, args) =>
      case Done(_) =>
    }
  }

  /** The step at `k` is copied, or intervened on under a known field. */
  predicate Covered(ivs: seq<Intervention>, k: int)
    requires ivs != []
  {
    k < BranchPoint(ivs) || (k in ByStep(ivs) && FieldOf(ByStep(ivs)[k].field).Some?)
  }

  /** The loop went on past `n` steps exactly when it executed none of them, and cached nothing. */
  predicate Unfed(p: Progress, ivs: seq<Intervention>, n: nat)
    requires ivs != []
  {
    && (p.Going? ==> p.handler == HandlerState(Mode.Replay, map[], []))
    && (p.Going? <==> forall k :: 0 <= k < n ==> Covered(ivs, k))
  }

  lemma {:induction false} CachelessStep(s: Setup, p: Progress, k: nat, orig: Fact, ivs: seq<Intervention>,
                                         world: World)
    requires ivs != [] && AlwaysAsks(s) && Unfed(p, ivs, k)
    ensures Unfed(ReplayStep(s, p, k, orig, BranchPoint(ivs), ByStep(ivs), world), ivs, k + 1)
  {
    hide Exec, BranchPoint, ByStep, FieldOf, DrawBoth, Asks;
    var q := ReplayStep(s, p, k, orig, BranchPoint(ivs), ByStep(ivs), world);
    if p.Going? {
      EmptyCacheStops(s.step(p.state, orig.obs), [], s.gen, p.handler, p.rngs, world, s.moves);
      assert q.Going? <==> Covered(ivs, k);
    }
  }

  lemma {:induction false} CachelessLoop(s: Setup, t: Trajectory, ivs: seq<Intervention>, n: nat, world: World)
    requires AlwaysAsks(s)
    requires n <= |t.facts| && ivs != [] && t.facts != [] && t.cache == map[] && t.callLog == []
    ensures Unfed(ReplayUpTo(s, t, ivs, n, world), ivs, n)
  {
    hide ReplayStep, BranchPoint, ByStep, FieldOf;
    if n > 0 {
      CachelessLoop(s, t, ivs, n - 1, world);
      CachelessStep(s, ReplayUpTo(s, t, ivs, n - 1, world), n - 1, t.facts[n - 1], ivs, world);
    }
  }

  /** `replay` accepts counterfactuals, but leaves their cache and call log empty: for an agent that
      asks for an effect in every step, replaying a counterfactual over its own window succeeds
      only when each step from the branch point on is itself intervened on. */
  lemma {:induction false} CounterfactualsHardlyReplay(s: Setup, t: Trajectory, ivs: seq<Intervention>, extra: seq<Doc>,
                                                       id: string, world: World, ivs': seq<Intervention>, id': string,
                                                       world': World)
    requires AlwaysAsks(s)
    requires ReplayOf(s, t, ivs, extra, id, world).Ok?
    requires var c := ReplayOf(s, t, ivs, extra, id, world).value; Refusal(c, ivs').None?
    ensures var c := ReplayOf(s, t, ivs, extra, id, world).value;
            ReplayOf(s, c, ivs', [], id', world').Ok? <==> forall k :: 0 <= k < |c.facts| ==> Covered(ivs', k)
  {
    var c := ReplayOf(s, t, ivs, extra, id, world).value;
    CachelessLoop(s, c, ivs', |c.facts|, world');
  }
}
