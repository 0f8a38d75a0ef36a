/** Recordings, and replays that change nothing.
    The contract `replay` relies on says that an agent step takes one llm draw and one env draw, no tool
    draw, and returns a fact that holds them beside the state and the observation it was given. From it
    follows the shape of a recording: both streams stand at offset k at the start of step k. Three things
    then have to hold together for a no-op replay to track a recording step by step: the caches only
    grow, so that what a step had cached is there when it is executed again; the random offsets agree;
    and so do the states. `Tracks` is their conjunction (src/persistence/replay/engine.py:55-104,
    186-207). */
module Recordings {
  import opened Wrappers
  import opened Effects
  import opened Engine

  // ---- The agent contract -----------------------------------------------------------------

  /** On every path of at most `fuel` more moves the agent takes one llm draw and one env draw in
      all (those given were taken already), no tool draw, and returns a fact that holds exactly
      those draws beside the state and the observation it was given. */
  ghost predicate Honours(agent: Agent, past: seq<Answer>, fuel: nat, state: Doc, obs: Doc,
                          expl: Option<real>, env: Option<real>)
    decreases fuel
  {
    fuel == 0 ||
    match agent(past)
    case Done(f) =>
      && expl.Some? && env.Some? && f.state == state && f.obs == obs
      && f.draws == map["expl" := expl.value, "env" := env.value]
    case Draw(d) =>
      && !d.Tool? && (if d.Llm? then expl.None? else env.None?)
      && forall x: real :: Honours(agent, past + [Number(x)], fuel - 1, state, obs,
                                   if d.Llm? then Some(x) else expl, if d.Env? then Some(x) else env)
    case Perform(_, _) =>
      forall v: Doc :: Honours(agent, past + [Reply(v)], fuel - 1, state, obs, expl, env)
  }

  /** The contract `replay` relies on (src/persistence/replay/engine.py:55-66, 274). */
  ghost predicate Aligned(s: Setup) {
    forall state: Doc, obs: Doc :: Honours(s.step(state, obs), [], s.moves, state, obs, None, None)
  }

  /** `f` and `r'` are what one aligned step on `state` and `obs` leaves behind, started at `r`. */
  predicate AlignedStep(gen: Generator, f: Fact, r: RngState, r': RngState, state: Doc, obs: Doc) {
    r' == DrawBoth(r) && f.draws == DrawsAt(gen, r) && f.state == state && f.obs == obs
  }

  lemma {:induction false} ExecHonours(agent: Agent, past: seq<Answer>, gen: Generator, h: HandlerState, r0: RngState,
                                       r: RngState, world: World, fuel: nat, state: Doc, obs: Doc,
                                       expl: Option<real>, env: Option<real>)
    requires Honours(agent, past, fuel, state, obs, expl, env)
    requires r == RngState(r0.seeds, r0.llm + (if expl.Some? then 1 else 0), r0.tool,
                           r0.env + (if env.Some? then 1 else 0))
    requires expl.Some? ==> expl.value == Peek(gen, r0, Llm)
    requires env.Some? ==> env.value == Peek(gen, r0, Env)
    ensures var e := Exec(agent, past, gen, h, r, world, fuel);
            e.Stepped? ==> AlignedStep(gen, e.fact, r0, e.rngs, state, obs)
    decreases fuel
  {
    if fuel > 0 {
      match agent(past)
      case Done(f) =>
      case Draw(d) =>
        var x := Peek(gen, r, d);
        ExecHonours(agent, past + [Number(x)], gen, h, r0, Advance(r, d), world, fuel - 1, state, obs,
                    if d.Llm? then Some(x) else expl, if d.Env? then Some(x) else env);
      case Perform(op, args) =>
        var (reply, h') := Serve(h, op, args, world(|h.calls|));
        if reply.Value? {
          ExecHonours(agent, past + [Reply(reply.result)], gen, h', r0, r, world, fuel - 1, state, obs, expl, env);
        }
    }
  }

  lemma {:induction false} RunAligned(s: Setup, p: Progress, obs: Doc, world: World)
    requires Aligned(s) && p.Going?
    ensures var e := Run(s, p, obs, world); e.Stepped? ==> AlignedStep(s.gen, e.fact, p.rngs, e.rngs, p.state, obs)
  {
    ExecHonours(s.step(p.state, obs), [], s.gen, p.handler, p.rngs, p.rngs, world, s.moves, p.state, obs, None, None);
  }

  // ---- A recording served back --------------------------------------------------------------

  lemma {:induction false} ExecGrows(agent: Agent, past: seq<Answer>, gen: Generator, h: HandlerState, r: RngState,
                                     world: World, fuel: nat)
    ensures var e := Exec(agent, past, gen, h, r, world, fuel);
            e.Stepped? ==> CacheWithin(h.cache, e.handler.cache) && e.handler.mode == h.mode
    decreases fuel
  {
    if fuel > 0 {
      match agent(past)
      case Done(f) =>
      case Draw(d) => ExecGrows(agent, past + [Number(Peek(gen, r, d))], gen, h, Advance(r, d), world, fuel - 1);
      case Perform(op, args) =>
        var (reply, h') := Serve(h, op, args, world(|h.calls|));
        if reply.Value? {
          ExecGrows(agent, past + [Reply(reply.result)], gen, h', r, world, fuel - 1);
        }
    }
  }

  /** A recorded agent step runs alike, in any world, over a replay handler that holds what the
      recording cached; and it leaves that handler as it was. */
  lemma {:induction false} ExecReplays(agent: Agent, past: seq<Answer>, gen: Generator, h: HandlerState, r: RngState,
                                       world: World, fuel: nat, rep: HandlerState, world': World)
    requires h.mode.Record? && rep.mode.Replay?
    requires var e := Exec(agent, past, gen, h, r, world, fuel); e.Stepped? && CacheWithin(e.handler.cache, rep.cache)
    ensures Exec(agent, past, gen, rep, r, world', fuel)
         == Exec(agent, past, gen, h, r, world, fuel).(handler := rep)
    decreases fuel
  {
    match agent(past)
    case Done(f) =>
    case Draw(d) =>
      ExecReplays(agent, past + [Number(Peek(gen, r, d))], gen, h, Advance(r, d), world, fuel - 1, rep, world');
    case Perform(op, args) =>
      var (reply, h') := Serve(h, op, args, world(|h.calls|));
      ExecGrows(agent, past + [Reply(reply.result)], gen, h', r, world, fuel - 1);
      assert (op, args) in h'.cache && h'.cache[(op, args)] == reply.result;
      ExecReplays(agent, past + [Reply(reply.result)], gen, h', r, world, fuel - 1, rep, world');
  }

  // ---- The shape of a recording ----------------------------------------------------------------

  /** Both streams of a run stand at offset `k`, and the tool stream was never drawn from. */
  function At(seeds: Seeds, k: nat): RngState {
    RngState(seeds, k, 0, k)
  }

  lemma {:induction false} RecordingShape(s: Setup, job: Job, n: nat, world: World)
    requires Aligned(s) && n <= |job.obs| && RecordUpTo(s, job, n, world).Going?
    ensures var p := RecordUpTo(s, job, n, world);
            && |p.facts| == n && p.rngs == At(job.seeds, n) && p.handler.mode.Record?
            && forall k :: 0 <= k < n ==> p.facts[k].draws == DrawsAt(s.gen, At(job.seeds, k))
  {
    hide Exec, DrawsAt;
    if n > 0 {
      var p := RecordUpTo(s, job, n - 1, world);
      RecordingShape(s, job, n - 1, world);
      RunAligned(s, p, job.obs[n - 1], world);
      ExecGrows(s.step(p.state, job.obs[n - 1]), [], s.gen, p.handler, p.rngs, world, s.moves);
    }
  }

  /** Step `k` of a recording that stands at `z` started where the loop stood after `k` steps, and all
      that it cached is in `z` still. */
  ghost predicate Traced(s: Setup, job: Job, k: nat, z: Progress, world: World)
    requires k < |job.obs| && z.Going?
  {
    var p, q := RecordUpTo(s, job, k, world), RecordUpTo(s, job, k + 1, world);
    && p.Going? && q.Going? && p.handler.mode.Record? && p.rngs == At(job.seeds, k)
    && k < |z.facts| && z.facts[k].state == p.state && z.facts[k].obs == job.obs[k]
    && Run(s, p, job.obs[k], world) == Stepped(z.facts[k], q.handler, q.rngs)
    && q.state == s.apply(p.state, job.obs[k], z.facts[k].action)
    && CacheWithin(q.handler.cache, z.handler.cache)
  }

  lemma {:induction false} NewestTraced(s: Setup, job: Job, k: nat, world: World)
    requires Aligned(s) && k < |job.obs| && RecordUpTo(s, job, k + 1, world).Going?
    ensures Traced(s, job, k, RecordUpTo(s, job, k + 1, world), world)
  {
    RecordingShape(s, job, k, world);
    RunAligned(s, RecordUpTo(s, job, k, world), job.obs[k], world);
  }

  lemma {:induction false} RecordStepGrows(s: Setup, p: Progress, obs: Doc, world: World)
    requires p.Going? && RecordStep(s, p, obs, world).Going?
    ensures p.facts <= RecordStep(s, p, obs, world).facts
    ensures CacheWithin(p.handler.cache, RecordStep(s, p, obs, world).handler.cache)
  {
    ExecGrows(s.step(p.state, obs), [], s.gen, p.handler, p.rngs, world, s.moves);
  }

  lemma {:induction false} RecordingTraced(s: Setup, job: Job, k: nat, n: nat, world: World)
    requires Aligned(s) && k < n <= |job.obs| && RecordUpTo(s, job, n, world).Going?
    ensures Traced(s, job, k, RecordUpTo(s, job, n, world), world)
    decreases n
  {
    if k == n - 1 {
      NewestTraced(s, job, k, world);
    } else {
      RecordingTraced(s, job, k, n - 1, world);
      RecordStepGrows(s, RecordUpTo(s, job, n - 1, world), job.obs[n - 1], world);
    }
  }

  // ---- Interventions that reach no later step -------------------------------------------------------

  /** Every effective intervention names a known field, and if that is the action or the observation, writes
      the recorded value back: the running state of a replay is made of those two alone. */
  predicate Inert(t: Trajectory, at: map<int, Intervention>) {
    forall k :: k in at ==>
      && 0 <= k < |t.facts| && FieldOf(at[k].field).Some?
      && var field := FieldOf(at[k].field).value;
         field.Action? || field.Obs? ==> at[k].newValue == Read(t.facts[k], field)
  }

  /** Every effective intervention writes a known field back to the value recorded in it. */
  predicate NoOp(t: Trajectory, at: map<int, Intervention>) {
    forall k :: k in at ==>
      && 0 <= k < |t.facts| && FieldOf(at[k].field).Some?
      && at[k].newValue == Read(t.facts[k], FieldOf(at[k].field).value)
  }

  /** Fact `k` of such a replay: an intervened step has its one field overwritten, a re-executed step its
      number, by its position. */
  function Restamped(t: Trajectory, ivs: seq<Intervention>, k: nat): Fact
    requires k < |t.facts| && ivs != []
  {
    var at := ByStep(ivs);
    if k < BranchPoint(ivs) then t.facts[k]
    else if k in at then
      if FieldOf(at[k].field).Some? then Write(t.facts[k], FieldOf(at[k].field).value, at[k].newValue) else t.facts[k]
    else t.facts[k].(step := k)
  }

  function RestampedUpTo(t: Trajectory, ivs: seq<Intervention>, k: nat): (r: seq<Fact>)
    requires k <= |t.facts| && ivs != []
    ensures |r| == k && forall i :: 0 <= i < k ==> r[i] == Restamped(t, ivs, i)
  {
    if k == 0 then [] else RestampedUpTo(t, ivs, k - 1) + [Restamped(t, ivs, k - 1)]
  }

  /** Where the replay loop stands after `k` steps, given the state the recording had there. */
  function Level(t: Trajectory, ivs: seq<Intervention>, k: nat, state: Doc): Progress
    requires k <= |t.facts| && ivs != []
  {
    Going(RestampedUpTo(t, ivs, k), state, HandlerState(Mode.Replay, t.cache, t.callLog), At(t.seeds, k))
  }

  /** A step executed in the recording is executed alike in the replay. */
  lemma {:induction false} ReexecutedAlike(s: Setup, p: Progress, rep: Progress, obs: Doc, world: World, world': World)
    requires p.Going? && rep.Going? && p.state == rep.state && p.rngs == rep.rngs
    requires p.handler.mode.Record? && rep.handler.mode.Replay?
    requires var e := Run(s, p, obs, world); e.Stepped? && CacheWithin(e.handler.cache, rep.handler.cache)
    ensures Run(s, rep, obs, world') == Run(s, p, obs, world).(handler := rep.handler)
  {
    ExecReplays(s.step(p.state, obs), [], s.gen, p.handler, p.rngs, world, s.moves, rep.handler, world');
  }

  /** A step that is not executed again, because it is copied or intervened on. */
  lemma {:induction false} LevelKeeps(s: Setup, t: Trajectory, ivs: seq<Intervention>, k: nat, state: Doc,
                                      world': World)
    requires k < |t.facts| && ivs != [] && Inert(t, ByStep(ivs))
    requires k < BranchPoint(ivs) || k in ByStep(ivs)
    requires t.facts[k].draws == DrawsAt(s.gen, At(t.seeds, k))
    ensures ReplayStep(s, Level(t, ivs, k, state), k, t.facts[k], BranchPoint(ivs), ByStep(ivs), world')
         == Level(t, ivs, k + 1, s.apply(state, t.facts[k].obs, t.facts[k].action))
  {
    hide Exec, BranchPoint, ByStep, FieldOf, DrawsAt;
    var f, at := t.facts[k], ByStep(ivs);
    assert DrawBoth(At(t.seeds, k)) == At(t.seeds, k + 1);
    if k in at {
      WritesOne(f, FieldOf(at[k].field).value, at[k].newValue);
      assert Intervened(f, at[k], s.gen, At(t.seeds, k)) == Ok(Write(f, FieldOf(at[k].field).value, at[k].newValue));
    }
  }

  lemma {:induction false} WritesOne(f: Fact, field: Field, d: Doc)
    ensures var w := Write(f, field, d);
            && w.draws == f.draws && w.(draws := f.draws) == w
            && (field.Action? || field.Obs? ==> (w == f <==> d == Read(f, field)))
            && (!(field.Action? || field.Obs?) ==> w.obs == f.obs && w.action == f.action)
            && (w == f <==> d == Read(f, field))
  {}

  /** A step that is executed again. */
  lemma {:induction false} LevelReruns(s: Setup, t: Trajectory, ivs: seq<Intervention>, k: nat, p: Progress,
                                       h: HandlerState, world: World, world': World)
    requires k < |t.facts| && ivs != [] && !(k < BranchPoint(ivs) || k in ByStep(ivs))
    requires p.Going? && p.handler.mode.Record? && p.rngs == At(t.seeds, k)
    requires Run(s, p, t.facts[k].obs, world) == Stepped(t.facts[k], h, At(t.seeds, k + 1))
    requires CacheWithin(h.cache, t.cache)
    ensures ReplayStep(s, Level(t, ivs, k, p.state), k, t.facts[k], BranchPoint(ivs), ByStep(ivs), world')
         == Level(t, ivs, k + 1, s.apply(p.state, t.facts[k].obs, t.facts[k].action))
  {
    ReexecutedAlike(s, p, Level(t, ivs, k, p.state), t.facts[k].obs, world, world');
  }

  lemma {:induction false} LevelStep(s: Setup, job: Job, t: Trajectory, ivs: seq<Intervention>, k: nat, z: Progress,
                                     world: World, world': World)
    requires k < |t.facts| == |job.obs| && ivs != [] && Inert(t, ByStep(ivs)) && t.seeds == job.seeds
    requires z.Going? && t.facts == z.facts && t.cache == z.handler.cache && Traced(s, job, k, z, world)
    requires t.facts[k].draws == DrawsAt(s.gen, At(t.seeds, k))
    requires RecordUpTo(s, job, k + 1, world).Going? && RecordUpTo(s, job, k + 1, world).rngs == At(t.seeds, k + 1)
    ensures ReplayStep(s, Level(t, ivs, k, RecordUpTo(s, job, k, world).state), k, t.facts[k], BranchPoint(ivs),
                       ByStep(ivs), world')
         == Level(t, ivs, k + 1, RecordUpTo(s, job, k + 1, world).state)
  {
    var p, q := RecordUpTo(s, job, k, world), RecordUpTo(s, job, k + 1, world);
    if k < BranchPoint(ivs) || k in ByStep(ivs) {
      LevelKeeps(s, t, ivs, k, p.state, world');
    } else {
      LevelReruns(s, t, ivs, k, p, q.handler, world, world');
    }
  }

  /** After `k` steps the replay stands where the recording stood: same state, same random offsets,
      and the handler it was given. */
  ghost predicate Tracks(s: Setup, job: Job, t: Trajectory, ivs: seq<Intervention>, k: nat, world: World, world': World)
    requires k <= |job.obs| == |t.facts| && t.facts != [] && ivs != []
  {
    && RecordUpTo(s, job, k, world).Going?
    && ReplayUpTo(s, t, ivs, k, world') == Level(t, ivs, k, RecordUpTo(s, job, k, world).state)
  }

  /** `t` records what the loop of `record` had gathered at `z`. */
  ghost predicate RecordsAll(s: Setup, job: Job, t: Trajectory, z: Progress, world: World) {
    && z == RecordUpTo(s, job, |job.obs|, world) && z.Going?
    && t.facts == z.facts && t.cache == z.handler.cache && t.seeds == job.seeds
    && |t.facts| == |job.obs|
    && forall k :: 0 <= k < |t.facts| ==> t.facts[k].draws == DrawsAt(s.gen, At(t.seeds, k))
  }

  lemma {:induction false} InertTracks(s: Setup, job: Job, t: Trajectory, ivs: seq<Intervention>, k: nat, z: Progress,
                                      world: World, world': World)
    requires Aligned(s) && RecordsAll(s, job, t, z, world)
    requires k <= |t.facts| && t.facts != [] && ivs != [] && Inert(t, ByStep(ivs))
    ensures Tracks(s, job, t, ivs, k, world, world')
  {
    hide Exec, BranchPoint, ByStep, RecordStep;
    if k == 0 {
      RecordingTraced(s, job, 0, |job.obs|, world);
    } else {
      InertTracks(s, job, t, ivs, k - 1, z, world, world');
      RecordingTraced(s, job, k - 1, |job.obs|, world);
      RecordingShape(s, job, k, world);
      LevelStep(s, job, t, ivs, k - 1, z, world, world');
    }
  }
}
