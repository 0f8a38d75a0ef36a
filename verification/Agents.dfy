/** Agents that meet the contract of `replay`, and agents that do not (tests/replay/conftest.py:21-68). */
module Agents {
  import opened Wrappers
  import opened Effects
  import opened Engine
  import opened Recordings

  function NumberAt(past: seq<Answer>, i: nat): real {
    if i < |past| && past[i].Number? then past[i].x else 0.0
  }

  function ReplyAt(past: seq<Answer>, i: nat): Doc {
    if i < |past| && past[i].Reply? then past[i].doc else map[]
  }

  /** The agent the replay tests record (tests/replay/conftest.py:21-68): an llm draw, an env draw, one
      cached llm call on a digest of the observation, and the action the reply names. */
  function ToyMove(state: Doc, obs: Doc, digest: Doc -> string, past: seq<Answer>): Move {
    if |past| == 0 then Draw(Llm)
    else if |past| == 1 then Draw(Env)
    else if |past| == 2 then Perform(LlmCall, Args(Some(digest(obs)), map[]))
    else
      var out := ReplyAt(past, 2);
      Done(Fact(GetOr(state, "step", 0.0).Floor, GetOr(state, "step", 0.0), state, obs, map[], out, out, [],
                map["expl" := NumberAt(past, 0), "env" := NumberAt(past, 1)]))
  }

  lemma {:induction false} ToyHonours(state: Doc, obs: Doc, digest: Doc -> string, moves: nat)
    requires moves >= 4
    ensures Honours(past => ToyMove(state, obs, digest, past), [], moves, state, obs, None, None)
  {
    hide GetOr;
    var agent := past => ToyMove(state, obs, digest, past);
    forall x: real
      ensures Honours(agent, [] + [Number(x)], moves - 1, state, obs, Some(x), None)
    {
      forall y: real
        ensures Honours(agent, [] + [Number(x)] + [Number(y)], moves - 2, state, obs, Some(x), Some(y))
      {
        forall v: Doc
          ensures Honours(agent, [] + [Number(x)] + [Number(y)] + [Reply(v)], moves - 3, state, obs, Some(x), Some(y))
        {
          var past := [] + [Number(x)] + [Number(y)] + [Reply(v)];
          assert past[0] == Number(x) && past[1] == Number(y);
        }
      }
    }
  }

  /** The toy agent meets the contract, whatever the digest, the action function and the generator. */
  lemma {:induction false} ToyAgentIsAligned(digest: Doc -> string, apply: (Doc, Doc, Doc) -> Doc, gen: Generator,
                                             moves: nat)
    requires moves >= 4
    ensures Aligned(Setup((state, obs) => past => ToyMove(state, obs, digest, past), apply, gen, moves))
  {
    hide Honours;
    var s := Setup((state, obs) => past => ToyMove(state, obs, digest, past), apply, gen, moves);
    forall state: Doc, obs: Doc ensures Honours(s.step(state, obs), [], s.moves, state, obs, None, None) {
      ToyHonours(state, obs, digest, moves);
      assert s.step(state, obs) == (past => ToyMove(state, obs, digest, past));
    }
  }

  // ---- An agent that also draws from the tool stream -----------------------------------------

  // It meets the contract but for one more draw, from the tool stream. That stream stands still while
  // `replay` copies or intervenes, so the agent is not reproduced by a no-op replay.

  function ToolMove(past: seq<Answer>): Move {
    if |past| == 0 then Draw(Llm)
    else if |past| == 1 then Draw(Env)
    else if |past| == 2 then Draw(Tool)
    else Done(ToolFact(NumberAt(past, 0), NumberAt(past, 1), NumberAt(past, 2)))
  }

  function ToolFact(llm: real, env: real, tool: real): Fact {
    Fact(llm.Floor, 0.0, map[], map[], map[], map[], map["a" := tool], [], map["expl" := llm, "env" := env])
  }

  function ToolSetup(): Setup {
    Setup((state, obs) => past => ToolMove(past), (state, obs, action) => state, (seed, n) => n as real, 4)
  }

  function ToolJob(): Job {
    Job("", map[], {}, map[], map[], [map[], map[]])
  }

  lemma {:induction false} ToolRun(state: Doc, obs: Doc, h: HandlerState, r: RngState, world: World)
    ensures Exec(ToolSetup().step(state, obs), [], ToolSetup().gen, h, r, world, 4)
         == Stepped(ToolFact(r.llm as real, r.env as real, r.tool as real), h,
                    RngState(r.seeds, r.llm + 1, r.tool + 1, r.env + 1))
  {
    hide ToolFact;
    var agent, gen := ToolSetup().step(state, obs), ToolSetup().gen;
    var a, b, c := Number(r.llm as real), Number(r.env as real), Number(r.tool as real);
    var r1, r2, r3 := Advance(r, Llm), Advance(Advance(r, Llm), Env), Advance(Advance(Advance(r, Llm), Env), Tool);
    assert [] + [a] == [a] && [a] + [b] == [a, b] && [a, b] + [c] == [a, b, c];
    assert Exec(agent, [a, b, c], gen, h, r3, world, 1) == Stepped(ToolFact(a.x, b.x, c.x), h, r3);
    assert Exec(agent, [a, b], gen, h, r2, world, 2) == Exec(agent, [a, b, c], gen, h, r3, world, 1);
    assert Exec(agent, [a], gen, h, r1, world, 3) == Exec(agent, [a, b], gen, h, r2, world, 2);
  }

  /** `replay` keeps the llm and env streams aligned, not the tool stream: under a no-op intervention on
      step 0 the agent draws again in step 1 the tool number it had drawn in step 0. */
  lemma {:induction false} ToolDrawsFallBehind(world: World, world': World)
    ensures var s, job, ivs := ToolSetup(), ToolJob(), [Intervention(0, "obs", map[])];
            RecordUpTo(s, job, 2, world).Going?
            && var t := Recorded(job, "t", RecordUpTo(s, job, 2, world));
               && Refusal(t, ivs).None? && NoOp(t, ByStep(ivs))
               && t.facts == [ToolFact(0.0, 0.0, 0.0), ToolFact(1.0, 1.0, 1.0)]
               && var r := ReplayOf(s, t, ivs, [], "c", world');
                  r.Ok? && r.value.facts == [ToolFact(0.0, 0.0, 0.0), ToolFact(1.0, 1.0, 0.0)]
  {
    hide Exec, FieldOf;
    var s, job, ivs := ToolSetup(), ToolJob(), [Intervention(0, "obs", map[])];
    ToolRecords(world);
    var p := RecordUpTo(s, job, 2, world);
    var t := Recorded(job, "t", p);
    KnownField();
    assert ivs[..0] == [] && ByStep(ivs) == map[0 := ivs[0]] && BranchPoint(ivs) == 0;
    assert ivs[1..] == [];
    ToolReplays(t, ivs, world');
  }

  lemma {:induction false} KnownField()
    ensures FieldOf("obs") == Some(Obs)
  {}

  lemma {:induction false} ToolRecords(world: World)
    ensures var p := RecordUpTo(ToolSetup(), ToolJob(), 2, world);
            p.Going? && p.facts == [ToolFact(0.0, 0.0, 0.0), ToolFact(1.0, 1.0, 1.0)] && p.state == map[]
  {
    hide Exec, ToolFact;
    var s, job := ToolSetup(), ToolJob();
    var h := HandlerState(Mode.Record, map[], []);
    var f0, f1 := ToolFact(0.0, 0.0, 0.0), ToolFact(1.0, 1.0, 1.0);
    ToolRun(map[], map[], h, RngState(map[], 0, 0, 0), world);
    ToolRun(map[], map[], h, RngState(map[], 1, 1, 1), world);
    assert [] + [f0] == [f0] && [f0] + [f1] == [f0, f1];
    assert RecordUpTo(s, job, 1, world) == Going([f0], map[], h, RngState(map[], 1, 1, 1));
  }

  lemma {:induction false} ToolReplays(t: Trajectory, ivs: seq<Intervention>, world: World)
    requires t.facts == [ToolFact(0.0, 0.0, 0.0), ToolFact(1.0, 1.0, 1.0)] && t.seeds == map[]
    requires ivs == [Intervention(0, "obs", map[])] && ByStep(ivs) == map[0 := ivs[0]] && BranchPoint(ivs) == 0
    ensures var p := ReplayUpTo(ToolSetup(), t, ivs, 2, world);
            p.Going? && p.facts == [ToolFact(0.0, 0.0, 0.0), ToolFact(1.0, 1.0, 0.0)]
  {
    hide Exec, FieldOf, ByStep, BranchPoint;
    var s := ToolSetup();
    var h := HandlerState(Mode.Replay, t.cache, t.callLog);
    var f0, f1 := ToolFact(0.0, 0.0, 0.0), ToolFact(1.0, 1.0, 0.0);
    KnownField();
    assert DrawsAt(s.gen, RngState(map[], 0, 0, 0)) == f0.draws;
    assert Intervened(t.facts[0], ivs[0], s.gen, RngState(map[], 0, 0, 0)) == Ok(f0);
    assert [] + [f0] == [f0] && [f0] + [f1] == [f0, f1];
    assert ReplayUpTo(s, t, ivs, 1, world) == Going([f0], map[], h, RngState(map[], 1, 0, 1));
    ToolRun(map[], map[], h, RngState(map[], 1, 0, 1), world);
    assert f1.(step := 1) == f1;
  }

  // ---- Agents that draw a fixed number of times ---------------------------------------------

  /** How many numbers an agent step draws from each stream. */
  datatype Takings = Takings(llm: nat, tool: nat, env: nat) {
    function Of(d: Domain): nat {
      match d
      case Llm => llm
      case Tool => tool
      case Env => env
    }

    function Less(d: Domain): Takings
      requires Of(d) > 0
    {
      match d
      case Llm => this.(llm := llm - 1)
      case Tool => this.(tool := tool - 1)
      case Env => this.(env := env - 1)
    }
  }

  /** On every path of at most `fuel` more moves on which the agent returns, it draws `left` in all. */
  ghost predicate Takes(agent: Agent, past: seq<Answer>, fuel: nat, left: Takings)
    decreases fuel
  {
    fuel == 0 ||
    match agent(past)
    case Done(_) => left == Takings(0, 0, 0)
    case Draw(d) => left.Of(d) > 0 && forall x: real :: Takes(agent, past + [Number(x)], fuel - 1, left.Less(d))
    case Perform(_, _) => forall v: Doc :: Takes(agent, past + [Reply(v)], fuel - 1, left)
  }

  ghost predicate AlwaysTakes(s: Setup, each: Takings) {
    forall state: Doc, obs: Doc :: Takes(s.step(state, obs), [], s.moves, each)
  }

  function Moved(r: RngState, taken: Takings): RngState {
    RngState(r.seeds, r.llm + taken.llm, r.tool + taken.tool, r.env + taken.env)
  }

  lemma {:induction false} ExecTakes(agent: Agent, past: seq<Answer>, gen: Generator, h: HandlerState, r: RngState,
                                     world: World, fuel: nat, left: Takings)
    requires Takes(agent, past, fuel, left)
    ensures var e := Exec(agent, past, gen, h, r, world, fuel); e.Stepped? ==> e.rngs == Moved(r, left)
    decreases fuel
  {
    if fuel > 0 {
      match agent(past)
      case Done(f) =>
      case Draw(d) =>
        ExecTakes(agent, past + [Number(Peek(gen, r, d))], gen, h, Advance(r, d), world, fuel - 1, left.Less(d));
      case Perform(op, args) =>
        var (reply, h') := Serve(h, op, args, world(|h.calls|));
        if reply.Value? {
          ExecTakes(agent, past + [Reply(reply.result)], gen, h', r, world, fuel - 1, left);
        }
    }
  }

  lemma {:induction false} RunTakes(s: Setup, p: Progress, obs: Doc, world: World, each: Takings)
    requires AlwaysTakes(s, each) && p.Going?
    ensures var e := Run(s, p, obs, world); e.Stepped? ==> e.rngs == Moved(p.rngs, each)
  {
    ExecTakes(s.step(p.state, obs), [], s.gen, p.handler, p.rngs, world, s.moves, each);
  }

  /** How many of the first `n` steps a replay copies or intervenes on. */
  function Skipped(ivs: seq<Intervention>, n: nat): (m: nat)
    requires ivs != []
    ensures m <= n
  {
    if n == 0 then 0
    else Skipped(ivs, n - 1) + if n - 1 < BranchPoint(ivs) || n - 1 in ByStep(ivs) then 1 else 0
  }

  function Times(n: nat, each: Takings): Takings {
    Takings(n * each.llm, n * each.tool, n * each.env)
  }

  /** What `replay` advances the streams by for a step it copies or intervenes on. */
  const ONE_OF_EACH: Takings := Takings(1, 0, 1)

  /** The offsets at which step `n` of a recording starts. */
  lemma {:induction false} RecordingOffsets(s: Setup, job: Job, n: nat, world: World, each: Takings)
    requires AlwaysTakes(s, each) && n <= |job.obs| && RecordUpTo(s, job, n, world).Going?
    ensures RecordUpTo(s, job, n, world).rngs == Moved(RngState(job.seeds, 0, 0, 0), Times(n, each))
  {
    hide Exec, AlwaysTakes, Times;
    if n == 0 {
      NoTimes(each);
    } else {
      OneMore(n - 1, each);
      RecordingOffsets(s, job, n - 1, world, each);
      RunTakes(s, RecordUpTo(s, job, n - 1, world), job.obs[n - 1], world, each);
    }
  }

  /** One step of a replay: a skipped one draws one of each, one executed again what the agent takes. */
  lemma {:induction false} StepTakes(s: Setup, p: Progress, k: nat, orig: Fact, ivs: seq<Intervention>, world: World,
                                     each: Takings)
    requires AlwaysTakes(s, each) && ivs != [] && p.Going?
    requires ReplayStep(s, p, k, orig, BranchPoint(ivs), ByStep(ivs), world).Going?
    ensures ReplayStep(s, p, k, orig, BranchPoint(ivs), ByStep(ivs), world).rngs ==
            Moved(p.rngs, if k < BranchPoint(ivs) || k in ByStep(ivs) then ONE_OF_EACH else each)
  {
    hide Exec, AlwaysTakes, BranchPoint, ByStep, Intervened;
    RunTakes(s, p, orig.obs, world, each);
  }

  /** The offsets at which step `n` of a replay starts: one llm and one env number for each step skipped, the
      agent's own takings for each step executed again, whatever the interventions. */
  lemma {:induction false} ReplayOffsets(s: Setup, t: Trajectory, ivs: seq<Intervention>, n: nat, world: World,
                                         each: Takings)
    requires AlwaysTakes(s, each) && n <= |t.facts| && ivs != [] && t.facts != []
    requires ReplayUpTo(s, t, ivs, n, world).Going?
    ensures ReplayUpTo(s, t, ivs, n, world).rngs ==
            Moved(Moved(RngState(t.seeds, 0, 0, 0), Times(Skipped(ivs, n), ONE_OF_EACH)),
                  Times(n - Skipped(ivs, n), each))
  {
    hide ReplayStep, AlwaysTakes, BranchPoint, ByStep, Times;
    if n == 0 {
      NoTimes(each);
      NoTimes(ONE_OF_EACH);
    } else {
      var skipped := Skipped(ivs, n - 1);
      OneMore(skipped, ONE_OF_EACH);
      OneMore(n - 1 - skipped, each);
      RaisedIsFinal(s, t, ivs, n, world);
      ReplayOffsets(s, t, ivs, n - 1, world, each);
      StepTakes(s, ReplayUpTo(s, t, ivs, n - 1, world), n - 1, t.facts[n - 1], ivs, world, each);
    }
  }

  lemma {:induction false} RaisedIsFinal(s: Setup, t: Trajectory, ivs: seq<Intervention>, n: nat, world: World)
    requires 0 < n <= |t.facts| && ivs != [] && t.facts != [] && ReplayUpTo(s, t, ivs, n, world).Going?
    ensures ReplayUpTo(s, t, ivs, n - 1, world).Going?
  {
    ReplayRaisedStays(s, t, ivs, n - 1, n, world);
  }

  lemma {:induction false} OneMore(n: nat, each: Takings)
    ensures Times(n + 1, each) ==
            Takings(Times(n, each).llm + each.llm, Times(n, each).tool + each.tool, Times(n, each).env + each.env)
  {}

  lemma {:induction false} NoTimes(each: Takings)
    ensures Times(0, each) == Takings(0, 0, 0)
  {}

  /** `n` steps of one kind and `m` of another draw as `n + m` of the other exactly when they draw alike. */
  lemma {:induction false} DrawAlikeIff(n: nat, m: nat, x: nat, y: nat)
    ensures (n + m) * y == n * x + m * y <==> n == 0 || x == y
  {
    assert (n + m) * y == n * y + m * y;
    if n > 0 && x != y {
      assert n * x - n * y == n * (x - y);
      assert n * (x - y) != 0;
    }
  }

  /** The contract is needed as it stands: for an agent that draws a fixed number of times a step, a
      replay starts step `n` at the offsets of the recording if and only if no earlier step was copied
      or intervened on, or the agent draws exactly one llm and one env number and none for its tools. */
  lemma {:induction false} StreamsAlignIff(s: Setup, job: Job, t: Trajectory, ivs: seq<Intervention>, n: nat,
                                           world: World, world': World, each: Takings)
    requires AlwaysTakes(s, each) && ivs != [] && t.facts != [] && t.seeds == job.seeds
    requires n <= |t.facts| && n <= |job.obs|
    requires RecordUpTo(s, job, n, world).Going? && ReplayUpTo(s, t, ivs, n, world').Going?
    ensures RecordUpTo(s, job, n, world).rngs == ReplayUpTo(s, t, ivs, n, world').rngs <==>
            Skipped(ivs, n) == 0 || each == ONE_OF_EACH
  {
    hide RecordUpTo, ReplayUpTo, AlwaysTakes, Skipped;
    var skipped := Skipped(ivs, n);
    RecordingOffsets(s, job, n, world, each);
    ReplayOffsets(s, t, ivs, n, world', each);
    DrawAlikeIff(skipped, n - skipped, 1, each.llm);
    DrawAlikeIff(skipped, n - skipped, 0, each.tool);
    DrawAlikeIff(skipped, n - skipped, 1, each.env);
  }
}
