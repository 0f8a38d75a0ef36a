/** What recorded and replayed trajectories and preference pairs hold (src/persistence/replay/engine.py, dpo.py). */
module Outcomes {
  import opened Wrappers
  import opened Effects
  import opened Engine
  import opened Recordings
  import opened Counterfactuals
  import opened Dpo

  // ---- The final state and the outcome ---------------------------------------------------

  /** The state that `apply` makes of `initial` by applying each fact's action to the observation beside it. */
  function Folded(s: Setup, initial: Doc, obs: seq<Doc>, facts: seq<Fact>): Doc
    requires |obs| == |facts|
  {
    if facts == [] then initial
    else
      var n := |facts| - 1;
      s.apply(Folded(s, initial, obs[..n], facts[..n]), obs[n], facts[n].action)
  }

  lemma {:induction false} FoldedSnoc(s: Setup, initial: Doc, obs: seq<Doc>, facts: seq<Fact>, o: Doc, f: Fact)
    requires |obs| == |facts|
    ensures Folded(s, initial, obs + [o], facts + [f]) == s.apply(Folded(s, initial, obs, facts), o, f.action)
  {
    assert (obs + [o])[..|obs|] == obs && (facts + [f])[..|facts|] == facts;
  }

  function ObsOf(facts: seq<Fact>): (r: seq<Doc>)
    ensures |r| == |facts|
  {
    seq(|facts|, k requires 0 <= k < |facts| => facts[k].obs)
  }

  lemma {:induction false} RecordingFolds(s: Setup, job: Job, n: nat, world: World)
    requires n <= |job.obs| && RecordUpTo(s, job, n, world).Going?
    ensures var p := RecordUpTo(s, job, n, world);
            |p.facts| == n && p.state == Folded(s, job.initial, job.obs[..n], p.facts)
  {
    hide Exec, Folded;
    if n == 0 {
      NothingFolded(s, job.initial);
    } else {
      var p, q := RecordUpTo(s, job, n - 1, world), RecordUpTo(s, job, n, world);
      RecordingFolds(s, job, n - 1, world);
      assert job.obs[..n] == job.obs[..n - 1] + [job.obs[n - 1]];
      FoldedSnoc(s, job.initial, job.obs[..n - 1], p.facts, job.obs[n - 1], q.facts[n - 1]);
    }
  }

  lemma {:induction false} NothingFolded(s: Setup, initial: Doc)
    ensures Folded(s, initial, [], []) == initial
  {}

  lemma {:induction false} WindowFolds(s: Setup, t: Trajectory, ivs: seq<Intervention>, n: nat, world: World)
    requires n <= |t.facts| && ivs != [] && t.facts != [] && ReplayUpTo(s, t, ivs, n, world).Going?
    ensures var p := ReplayUpTo(s, t, ivs, n, world);
            |p.facts| == n && p.state == Folded(s, t.facts[0].state, ObsOf(p.facts), p.facts)
  {
    hide Exec, Folded, BranchPoint, ByStep, FieldOf, DrawBoth, DrawsAt;
    if n == 0 {
      NothingFolded(s, t.facts[0].state);
    } else {
      var p, q := ReplayUpTo(s, t, ivs, n - 1, world), ReplayUpTo(s, t, ivs, n, world);
      WindowFolds(s, t, ivs, n - 1, world);
      var f := q.facts[n - 1];
      assert ObsOf(q.facts) == ObsOf(p.facts) + [f.obs];
      FoldedSnoc(s, t.facts[0].state, ObsOf(p.facts), p.facts, f.obs, f);
    }
  }

  lemma {:induction false} PastFolds(s: Setup, t: Trajectory, ivs: seq<Intervention>, extra: seq<Doc>, n: nat,
                                     world: World)
    requires n <= |extra| && ivs != [] && t.facts != [] && ReplayPast(s, t, ivs, extra, n, world).Going?
    ensures var p := ReplayPast(s, t, ivs, extra, n, world);
            && |p.facts| == |t.facts| + n
            && p.state == Folded(s, t.facts[0].state, ObsOf(p.facts[..|t.facts|]) + extra[..n], p.facts)
  {
    hide Exec, Folded, BranchPoint, ByStep, ReplayUpTo;
    var p := ReplayPast(s, t, ivs, extra, n, world);
    if n == 0 {
      WindowFolds(s, t, ivs, |t.facts|, world);
      assert p.facts[..|t.facts|] == p.facts && ObsOf(p.facts) + extra[..0] == ObsOf(p.facts);
    } else {
      var o := ReplayPast(s, t, ivs, extra, n - 1, world);
      PastFolds(s, t, ivs, extra, n - 1, world);
      var obs := ObsOf(o.facts[..|t.facts|]) + extra[..n - 1];
      assert o.facts[..|t.facts|] == p.facts[..|t.facts|];
      assert ObsOf(p.facts[..|t.facts|]) + extra[..n] == obs + [extra[n - 1]];
      FoldedSnoc(s, t.facts[0].state, obs, o.facts, extra[n - 1], p.facts[|t.facts| + n - 1]);
    }
  }

  function Figure(d: Doc, key: string): real {
    if key in d then d[key] else 0.0
  }

  /** The outcome of a run that ended in state `z`: the two figures of `z`, zero where it has none. */
  predicate Figures(t: Trajectory, z: Doc) {
    && t.outcome.Keys == {"pnl", "balance"}
    && t.outcome["pnl"] == Figure(z, "pnl") && t.outcome["balance"] == Figure(z, "balance")
    && Pnl(t) == Figure(z, "pnl")
  }

  /** The outcome of a recording holds the figures of the state its actions lead to. */
  lemma {:induction false} RecordedOutcome(s: Setup, job: Job, id: string, world: World)
    requires RecordUpTo(s, job, |job.obs|, world).Going?
    ensures var t := Recorded(job, id, RecordUpTo(s, job, |job.obs|, world));
            |t.facts| == |job.obs| && Figures(t, Folded(s, job.initial, job.obs, t.facts))
  {
    hide RecordUpTo, Folded;
    RecordingFolds(s, job, |job.obs|, world);
    assert job.obs[..|job.obs|] == job.obs;
  }

  /** The outcome of a replay holds the figures of the state that its own actions lead to from the first
      recorded state, on the observations of its facts inside the window and the extra ones past it. */
  lemma {:induction false} ReplayedOutcome(s: Setup, t: Trajectory, ivs: seq<Intervention>, extra: seq<Doc>, id: string,
                                           world: World)
    requires ReplayOf(s, t, ivs, extra, id, world).Ok?
    ensures var c := ReplayOf(s, t, ivs, extra, id, world).value;
            && |c.facts| == |t.facts| + |extra| && t.facts != []
            && Figures(c, Folded(s, t.facts[0].state, ObsOf(c.facts[..|t.facts|]) + extra, c.facts))
  {
    hide Folded, BranchPoint, ReplayPast;
    PastFolds(s, t, ivs, extra, |extra|, world);
    assert extra[..|extra|] == extra;
  }

  // ---- The draws ---------------------------------------------------------------------------------

  /** The `k`-th number of the stream that the seed under `name` starts, seed 0 where there is none. */
  function NthDraw(gen: Generator, seeds: Seeds, name: string, k: nat): real {
    gen(if name in seeds then seeds[name] else 0, k)
  }

  /** Step `k` holds the k-th draw of the llm stream and the k-th of the env stream. */
  predicate DrewAt(gen: Generator, seeds: Seeds, f: Fact, k: nat) {
    f.draws == map["expl" := NthDraw(gen, seeds, "llm", k), "env" := NthDraw(gen, seeds, "env", k)]
  }

  /** A number drawn from a domain is the next of the stream its seed starts, and moves that stream on by one and
      no other. */
  lemma {:induction false} DrawsByDomain(gen: Generator, r: RngState)
    ensures Peek(gen, r, Llm) == NthDraw(gen, r.seeds, "llm", r.llm)
    ensures Peek(gen, r, Tool) == NthDraw(gen, r.seeds, "tool", r.tool)
    ensures Peek(gen, r, Env) == NthDraw(gen, r.seeds, "env", r.env)
    ensures Advance(r, Llm) == RngState(r.seeds, r.llm + 1, r.tool, r.env)
    ensures Advance(r, Tool) == RngState(r.seeds, r.llm, r.tool + 1, r.env)
    ensures Advance(r, Env) == RngState(r.seeds, r.llm, r.tool, r.env + 1)
  {}

  /** Step by step a recording holds the numbers of its two streams in order, and so does any replay of it,
      within the window and past it. */
  lemma {:induction false} DrawsByPosition(s: Setup, job: Job, id: string, ivs: seq<Intervention>, extra: seq<Doc>,
                                           id': string, world: World, world': World)
    requires Aligned(s) && RecordUpTo(s, job, |job.obs|, world).Going?
    ensures var t := Recorded(job, id, RecordUpTo(s, job, |job.obs|, world));
            && (forall k :: 0 <= k < |t.facts| ==> DrewAt(s.gen, job.seeds, t.facts[k], k))
            && (ReplayOf(s, t, ivs, extra, id', world').Ok? ==>
                  forall k :: 0 <= k < |ReplayOf(s, t, ivs, extra, id', world').value.facts| ==>
                    DrewAt(s.gen, job.seeds, ReplayOf(s, t, ivs, extra, id', world').value.facts[k], k))
  {
    hide RecordUpTo, ReplayOf, Explained;
    RecordingShape(s, job, |job.obs|, world);
    if ReplayOf(s, Recorded(job, id, RecordUpTo(s, job, |job.obs|, world)), ivs, extra, id', world').Ok? {
      DrawsStayAligned(s, job, id, ivs, extra, id', world, world');
    }
  }

  // ---- Replaying and simulating ----------------------------------------------------------------------

  lemma {:induction false} RunKeepsMode(s: Setup, p: Progress, obs: Doc, world: World)
    requires p.Going?
    ensures var e := Run(s, p, obs, world);
            e.Stepped? ==> e.handler.mode == p.handler.mode && CacheWithin(p.handler.cache, e.handler.cache)
  {
    ExecGrows(s.step(p.state, obs), [], s.gen, p.handler, p.rngs, world, s.moves);
  }

  lemma {:induction false} WindowReplays(s: Setup, t: Trajectory, ivs: seq<Intervention>, n: nat, world: World)
    requires n <= |t.facts| && ivs != [] && t.facts != [] && ReplayUpTo(s, t, ivs, n, world).Going?
    ensures var h := ReplayUpTo(s, t, ivs, n, world).handler;
            h.mode == Mode.Replay && CacheWithin(t.cache, h.cache)
  {
    hide Exec, BranchPoint, ByStep, FieldOf, DrawBoth, DrawsAt, Run;
    if n > 0 {
      var p := ReplayUpTo(s, t, ivs, n - 1, world);
      WindowReplays(s, t, ivs, n - 1, world);
      RunKeepsMode(s, p, t.facts[n - 1].obs, world);
    }
  }

  /** Past the window nothing is replayed: step by step the agent runs on the next extra observation, in record mode,
      over all that was recorded; its facts are numbered on from the window. */
  lemma {:induction false} PastIsSimulated(s: Setup, t: Trajectory, ivs: seq<Intervention>, extra: seq<Doc>, n: nat,
                                           world: World)
    requires n < |extra| && ivs != [] && t.facts != [] && ReplayPast(s, t, ivs, extra, n, world).Going?
    ensures var p := ReplayPast(s, t, ivs, extra, n, world);
            && p.handler.mode == Mode.Record && CacheWithin(t.cache, p.handler.cache)
            && match Exec(s.step(p.state, extra[n]), [], s.gen, p.handler, p.rngs, world, s.moves)
               case Stopped(e) => ReplayPast(s, t, ivs, extra, n + 1, world) == Raised(e)
               case Stepped(f, h, r) =>
                 var q := ReplayPast(s, t, ivs, extra, n + 1, world);
                 q.Going? && q.facts == p.facts + [f.(step := |t.facts| + n)] && q.handler == h && q.rngs == r
  {
    hide Exec, BranchPoint, ByStep, ReplayUpTo;
    if n == 0 {
      WindowReplays(s, t, ivs, |t.facts|, world);
    } else {
      PastIsSimulated(s, t, ivs, extra, n - 1, world);
      RunKeepsMode(s, ReplayPast(s, t, ivs, extra, n - 1, world), extra[n - 1], world);
    }
  }

  /** Within it a step that is neither copied nor intervened on is the agent's own on the recorded observation, in
      replay mode over all that was recorded, numbered by its position. */
  lemma {:induction false} WindowReexecutes(s: Setup, t: Trajectory, ivs: seq<Intervention>, k: nat, world: World)
    requires k < |t.facts| && ivs != [] && ReplayUpTo(s, t, ivs, k, world).Going?
    requires BranchPoint(ivs) <= k && forall i :: 0 <= i < |ivs| ==> ivs[i].step != k
    ensures var p := ReplayUpTo(s, t, ivs, k, world);
            && p.handler.mode == Mode.Replay && CacheWithin(t.cache, p.handler.cache)
            && match Exec(s.step(p.state, t.facts[k].obs), [], s.gen, p.handler, p.rngs, world, s.moves)
               case Stopped(e) => ReplayUpTo(s, t, ivs, k + 1, world) == Raised(e)
               case Stepped(f, h, r) =>
                 var q := ReplayUpTo(s, t, ivs, k + 1, world);
                 q.Going? && q.facts == p.facts + [f.(step := k)] && q.handler == h && q.rngs == r
  {
    hide Exec, BranchPoint, ByStep, FieldOf, DrawBoth, DrawsAt;
    WindowReplays(s, t, ivs, k, world);
    assert k !in ByStep(ivs);
  }

  // ---- Identity and lineage ------------------------------------------------------------------------

  /** A recording is a completed trajectory without ancestry, under the job's own description; its digest is of
      all it holds but its identity and its cache. */
  lemma {:induction false} RecordingIs(s: Setup, job: Job, id: string, world: World)
    requires RecordUpTo(s, job, |job.obs|, world).Going?
    ensures var t := Recorded(job, id, RecordUpTo(s, job, |job.obs|, world));
            && t.id == id && t.parentId == None && t.branchPoint == None && t.intervention == None
            && t.agent == job.agent && t.goal == job.goal && t.tags == job.tags && t.seeds == job.seeds
            && t.status == Completed && t.wallClockBasis == AsRecorded && !t.extrapolated && DigestIsOwn(t)
  {
    hide RecordUpTo, OutcomeOf;
  }

  /** The digest is of the trajectory it stands in. */
  predicate DigestIsOwn(t: Trajectory) {
    t.hash.Some?
    && t.hash.value.agent == t.agent && t.hash.value.goal == t.goal && t.hash.value.seeds == t.seeds
    && t.hash.value.wallClockBasis == t.wallClockBasis && t.hash.value.outcome == t.outcome
    && t.hash.value.facts == t.facts && t.hash.value.tags == t.tags && t.hash.value.extrapolated == t.extrapolated
  }

  /** A counterfactual names its parent, all its interventions and the earliest step they touch; it keeps the
      parent's description, is marked extrapolated exactly when it ran past the window, and has no cache. */
  lemma {:induction false} CounterfactualIs(s: Setup, t: Trajectory, ivs: seq<Intervention>, extra: seq<Doc>,
                                            id: string, world: World)
    requires ReplayOf(s, t, ivs, extra, id, world).Ok?
    ensures var c := ReplayOf(s, t, ivs, extra, id, world).value;
            && c.id == id && c.parentId == Some(t.id) && c.intervention == Some(ivs) && c.status == Counterfactual
            && c.branchPoint.Some? && (exists iv :: iv in ivs && iv.step == c.branchPoint.value)
            && (forall iv :: iv in ivs ==> 0 <= c.branchPoint.value <= iv.step < |t.facts|)
            && c.agent == t.agent && c.goal == t.goal && c.tags == t.tags && c.seeds == t.seeds
            && c.wallClockBasis == t.wallClockBasis && (c.extrapolated <==> extra != [])
            && c.cache == map[] && c.callLog == [] && DigestIsOwn(c)
  {
    hide ReplayPast, OutcomeOf;
    var b := BranchPoint(ivs);
    var i :| 0 <= i < |ivs| && ivs[i].step == b;
    assert ivs[i] in ivs;
  }

  // ---- Refusals and interventions ---------------------------------------------------------------------

  /** What `replay` refuses before it runs anything, and in what order: a trajectory still running, no
      intervention, no fact to intervene on, and then the first intervention outside the window. */
  lemma {:induction false} ReplayRefuses(t: Trajectory, ivs: seq<Intervention>)
    ensures Refusal(t, ivs) == Some(NotReplayable(Running)) <==> t.status == Running
    ensures Refusal(t, ivs) == Some(NoInterventions) <==> t.status != Running && ivs == []
    ensures Refusal(t, ivs) == Some(EmptyTrajectory) <==> t.status != Running && ivs != [] && t.facts == []
    ensures t.status != Running && ivs != [] && t.facts != [] ==>
              match Refusal(t, ivs)
              case None => forall i :: 0 <= i < |ivs| ==> 0 <= ivs[i].step < |t.facts|
              case Some(e) => exists i :: 0 <= i < |ivs| && e == StepOutOfRange(ivs[i].step)
                                          && !(0 <= ivs[i].step < |t.facts|)
                                          && forall j :: 0 <= j < i ==> 0 <= ivs[j].step < |t.facts|
  {
    FirstOutside(ivs, |t.facts|);
  }

  lemma {:induction false} FirstOutside(ivs: seq<Intervention>, n: nat)
    ensures match FirstOutOfRange(ivs, n)
            case None => forall i :: 0 <= i < |ivs| ==> 0 <= ivs[i].step < n
            case Some(e) => exists i :: 0 <= i < |ivs| && e == StepOutOfRange(ivs[i].step) && !(0 <= ivs[i].step < n)
                                        && forall j :: 0 <= j < i ==> 0 <= ivs[j].step < n
  {
    if ivs != [] {
      FirstOutside(ivs[1..], n);
      if 0 <= ivs[0].step < n && FirstOutOfRange(ivs[1..], n).Some? {
        var e := FirstOutOfRange(ivs[1..], n).value;
        var i :| 0 <= i < |ivs[1..]| && e == StepOutOfRange(ivs[1..][i].step) && !(0 <= ivs[1..][i].step < n)
                 && forall j :: 0 <= j < i ==> 0 <= ivs[1..][j].step < n;
        assert ivs[i + 1] == ivs[1..][i];
        forall j | 0 <= j < i + 1 ensures 0 <= ivs[j].step < n {
          assert j > 0 ==> ivs[j] == ivs[1..][j - 1];
        }
      }
    }
  }

  /** The names of the four fields, each with and without its colon. */
  predicate Names(name: string, field: Field) {
    match field
    case Action => name == ":action" || name == "action"
    case Obs => name == ":obs" || name == "obs"
    case LlmOut => name == ":llm-out" || name == "llm-out" || name == "llm_out"
    case State => name == ":state" || name == "state"
  }

  lemma {:induction false} FieldsByName(name: string, field: Field)
    ensures FieldOf(name) == Some(field) <==> Names(name, field)
  {}

  /** An intervention writes the one field it names, and nothing else but the draws; a name that is none of the
      four fields is refused. */
  lemma {:induction false} InterventionWrites(orig: Fact, iv: Intervention, gen: Generator, r: RngState, field: Field)
    ensures Names(iv.field, field) ==>
              && Intervened(orig, iv, gen, r).Ok?
              && var f := Intervened(orig, iv, gen, r).value;
                 && f.action == (if field == Action then iv.newValue else orig.action)
                 && f.obs == (if field == Obs then iv.newValue else orig.obs)
                 && f.llmOut == (if field == LlmOut then iv.newValue else orig.llmOut)
                 && f.state == (if field == State then iv.newValue else orig.state)
                 && f.step == orig.step && f.t == orig.t && f.llmIn == orig.llmIn && f.toolCalls == orig.toolCalls
                 && f.draws == map["expl" := NthDraw(gen, r.seeds, "llm", r.llm),
                                   "env" := NthDraw(gen, r.seeds, "env", r.env)]
    ensures Intervened(orig, iv, gen, r) == Err(UnknownField(iv.field)) <==>
            !Names(iv.field, Action) && !Names(iv.field, Obs) && !Names(iv.field, LlmOut) && !Names(iv.field, State)
  {
    hide FieldOf, Names;
    FieldsByName(iv.field, field);
    FieldsByName(iv.field, Action);
    FieldsByName(iv.field, Obs);
    FieldsByName(iv.field, LlmOut);
    FieldsByName(iv.field, State);
  }

  // ---- Preference pairs ----------------------------------------------------------------------------------

  /** The two runs hold the same states, observations, model outputs and actions before step `b`. */
  predicate SameBefore(a: Trajectory, b: Trajectory, n: nat)
    requires n <= |a.facts| && n <= |b.facts|
  {
    forall k :: 0 <= k < n ==>
      && a.facts[k].state == b.facts[k].state && a.facts[k].obs == b.facts[k].obs
      && a.facts[k].llmOut == b.facts[k].llmOut && a.facts[k].action == b.facts[k].action
  }

  /** There is a pair exactly when both runs reach the branch point, agree before it and differ in pnl by more than
      the threshold. Its prompt is the factual's model input there, the output of the run with the higher pnl is
      chosen (of equals the factual), that of the other rejected, and the margin is what they differ by. */
  lemma {:induction false} PairPrefersTheWinner(t: Trajectory, c: Trajectory, b: nat, threshold: real)
    requires c.branchPoint == Some(b)
    ensures var x, y := Figure(t.outcome, "pnl"), Figure(c.outcome, "pnl");
            match ExtractPair(t, c, threshold)
            case None => b >= |t.facts| || b >= |c.facts| || !SameBefore(t, c, b)
                         || (x - y <= threshold && y - x <= threshold)
            case Some(pair) =>
              && b < |t.facts| && b < |c.facts| && SameBefore(t, c, b)
              && pair.prompt == t.facts[b].llmIn
              && pair.chosen == (if y > x then c.facts[b].llmOut else t.facts[b].llmOut)
              && pair.rejected == (if y > x then t.facts[b].llmOut else c.facts[b].llmOut)
              && pair.margin == (if y > x then y - x else x - y) && pair.margin > threshold
  {
    if b < |t.facts| && b < |c.facts| {
      assert PrefixMatches(t, c, b) <==> SameBefore(t, c, b);
    }
  }
}
