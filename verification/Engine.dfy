/** Recording and counterfactual replay with aligned randomness (src/persistence/replay/engine.py).
    The agent step is a deterministic interactive program: the answers it has received decide its next move.
    The streams it draws from are a seed and an offset each. */
module Engine {
  import opened Wrappers
  import opened Effects

  // ---- Facts and trajectories (src/persistence/replay/trajectory.py) -------------------

  datatype Fact = Fact(step: int, t: real, state: Doc, obs: Doc, llmIn: Doc, llmOut: Doc, action: Doc,
                       toolCalls: seq<Doc>, draws: Doc)

  type Seeds = map<string, int>

  datatype Status = Running | Completed | Failed | Counterfactual

  datatype WallClock = AsRecorded | Now

  datatype Intervention = Intervention(step: int, field: string, newValue: Doc)

  /** What `trajectory_hash` digests: every field but the identity, the caches and the lineage. */
  datatype Content = Content(agent: string, goal: Doc, seeds: Seeds, wallClockBasis: WallClock, outcome: Doc,
                             facts: seq<Fact>, tags: set<string>, extrapolated: bool)

  /** The digest in `hash` stands for the content it is taken of. */
  datatype Trajectory = Trajectory(id: string, parentId: Option<string>, branchPoint: Option<int>,
                                   intervention: Option<seq<Intervention>>, agent: string, goal: Doc, seeds: Seeds,
                                   wallClockBasis: WallClock, status: Status, outcome: Doc, facts: seq<Fact>,
                                   hash: Option<Content>, tags: set<string>, cache: map<Key, Doc>,
                                   callLog: seq<CallRec>, extrapolated: bool)

  function ContentOf(t: Trajectory): Content {
    Content(t.agent, t.goal, t.seeds, t.wallClockBasis, t.outcome, t.facts, t.tags, t.extrapolated)
  }

  function GetOr(d: Doc, key: string, default: real): real {
    if key in d then d[key] else default
  }

  function OutcomeOf(state: Doc): Doc {
    map["pnl" := GetOr(state, "pnl", 0.0), "balance" := GetOr(state, "balance", 0.0)]
  }

  // ---- Random streams ----------------------------------------------------------------------

  datatype Domain = Llm | Tool | Env

  /** The generators of one run: the seeds and how many numbers each domain has drawn. */
  datatype RngState = RngState(seeds: Seeds, llm: nat, tool: nat, env: nat)

  /** A generator: the n-th number of the stream a seed starts. */
  type Generator = (int, nat) -> real

  function SeedOf(seeds: Seeds, name: string): int {
    if name in seeds then seeds[name] else 0
  }

  function Peek(gen: Generator, r: RngState, d: Domain): real {
    match d
    case Llm => gen(SeedOf(r.seeds, "llm"), r.llm)
    case Tool => gen(SeedOf(r.seeds, "tool"), r.tool)
    case Env => gen(SeedOf(r.seeds, "env"), r.env)
  }

  function Advance(r: RngState, d: Domain): RngState {
    match d
    case Llm => r.(llm := r.llm + 1)
    case Tool => r.(tool := r.tool + 1)
    case Env => r.(env := r.env + 1)
  }

  class Rngs {
    const seeds: Seeds
    var llm: nat
    var tool: nat
    var env: nat

    constructor (seeds: Seeds)
      ensures State() == RngState(seeds, 0, 0, 0)
    {
      this.seeds, llm, tool, env := seeds, 0, 0, 0;
    }

    ghost function State(): RngState
      reads this
    {
      RngState(seeds, llm, tool, env)
    }

    method Random(gen: Generator, d: Domain) returns (x: real)
      modifies this
      ensures x == Peek(gen, old(State()), d) && State() == Advance(old(State()), d)
    {
      match d {
        case Llm =>
          x := gen(SeedOf(seeds, "llm"), llm);
          llm := llm + 1;
        case Tool =>
          x := gen(SeedOf(seeds, "tool"), tool);
          tool := tool + 1;
        case Env =>
          x := gen(SeedOf(seeds, "env"), env);
          env := env + 1;
      }
    }
  }

  // ---- The agent ----------------------------------------------------------------------------

  /** What one call of `agent_step_fn` does next: return its fact, draw a number, or ask for an effect. */
  datatype Move = Done(fact: Fact) | Draw(domain: Domain) | Perform(op: Op, args: Args)

  datatype Answer = Number(x: real) | Reply(doc: Doc)

  /** One call of `agent_step_fn` as a deterministic interactive program: the answers so far decide
      the next move. */
  type Agent = seq<Answer> -> Move

  /** The functions passed to both `record` and `replay`, the generator both seed, and the number of
      moves within which an agent step returns. */
  datatype Setup = Setup(step: (Doc, Doc) -> Agent, apply: (Doc, Doc, Doc) -> Doc, gen: Generator, moves: nat)

  datatype ReplayError = NotReplayable(status: Status) | NoInterventions | EmptyTrajectory | StepOutOfRange(step: int)
                       | UnknownField(field: string) | Effect(error: Error) | Diverged

  datatype Stepped = Stepped(fact: Fact, handler: HandlerState, rngs: RngState) | Stopped(error: ReplayError)

  /** Running an agent step that has received the answers `past`, for at most `fuel` more moves. A thunk
      that raises ends the run, so the calls logged so far number the thunks run. */
  function Exec(agent: Agent, past: seq<Answer>, gen: Generator, h: HandlerState, r: RngState, world: World,
                fuel: nat): Stepped
    decreases fuel
  {
    if fuel == 0 then Stopped(Diverged)
    else
      match agent(past)
      case Done(f) => Stepped(f, h, r)
      case Draw(d) => Exec(agent, past + [Number(Peek(gen, r, d))], gen, h, Advance(r, d), world, fuel - 1)
      case Perform(op, args) =>
        var (reply, h') := Serve(h, op, args, world(|h.calls|));
        match reply
        case Value(v) => Exec(agent, past + [Reply(v)], gen, h', r, world, fuel - 1)
        case Error(e) => Stopped(Effect(e))
  }

  method RunAgent(s: Setup, state: Doc, obs: Doc, handler: EffectHandler, rngs: Rngs, world: World)
    returns (res: Result<Fact, ReplayError>)
    modifies handler, rngs
    ensures match Exec(s.step(state, obs), [], s.gen, old(handler.State()), old(rngs.State()), world, s.moves)
            case Stepped(f, h, r) => res == Ok(f) && handler.State() == h && rngs.State() == r
            case Stopped(e) => res == Err(e)
  {
    var agent, past, fuel := s.step(state, obs), [], s.moves;
    while fuel > 0
      invariant Exec(agent, past, s.gen, handler.State(), rngs.State(), world, fuel)
             == Exec(agent, [], s.gen, old(handler.State()), old(rngs.State()), world, s.moves)
    {
      match agent(past) {
        case Done(f) => return Ok(f);
        case Draw(d) =>
          var x := rngs.Random(s.gen, d);
          past := past + [Number(x)];
        case Perform(op, args) =>
          var n := |handler.calls|;
          var reply := handler.Call(op, args, () => world(n));
          match reply {
            case Value(v) => past := past + [Reply(v)];
            case Error(e) => return Err(Effect(e));
          }
      }
      fuel := fuel - 1;
    }
    res := Err(Diverged);
  }

  // ---- Recording ------------------------------------------------------------------------------

  /** What `record` is asked to run. */
  datatype Job = Job(agent: string, goal: Doc, tags: set<string>, seeds: Seeds, initial: Doc, obs: seq<Doc>)

  /** The locals of `record` and `replay` between two steps, or the exception that left the loop. */
  datatype Progress = Going(facts: seq<Fact>, state: Doc, handler: HandlerState, rngs: RngState)
                    | Raised(error: ReplayError)

  function Start(state: Doc, h: HandlerState, seeds: Seeds): Progress {
    Going([], state, h, RngState(seeds, 0, 0, 0))
  }

  /** The agent run on `obs` from where the loop stands. */
  function Run(s: Setup, p: Progress, obs: Doc, world: World): Stepped
    requires p.Going?
  {
    Exec(s.step(p.state, obs), [], s.gen, p.handler, p.rngs, world, s.moves)
  }

  /** The loop with one more fact, whose action is applied to `obs`. */
  function Push(s: Setup, p: Progress, fact: Fact, obs: Doc, h: HandlerState, r: RngState): Progress
    requires p.Going?
  {
    Going(p.facts + [fact], s.apply(p.state, obs, fact.action), h, r)
  }

  function RecordStep(s: Setup, p: Progress, obs: Doc, world: World): Progress {
    if p.Raised? then p
    else
      match Run(s, p, obs, world)
      case Stopped(e) => Raised(e)
      case Stepped(f, h, r) => Push(s, p, f, obs, h, r)
  }

  /** `record` after `n` observations. */
  function RecordUpTo(s: Setup, job: Job, n: nat, world: World): Progress
    requires n <= |job.obs|
  {
    if n == 0 then Start(job.initial, HandlerState(Mode.Record, map[], []), job.seeds)
    else RecordStep(s, RecordUpTo(s, job, n - 1, world), job.obs[n - 1], world)
  }

  /** The trajectory `record` starts from. */
  function Blank(job: Job, id: string): Trajectory {
    Trajectory(id, None, None, None, job.agent, job.goal, job.seeds, AsRecorded, Completed, map[], [], None,
               job.tags, map[], [], false)
  }

  function Hashed(t: Trajectory): Trajectory {
    t.(hash := Some(ContentOf(t)))
  }

  function Recorded(job: Job, id: string, p: Progress): Trajectory
    requires p.Going?
  {
    Hashed(Blank(job, id).(facts := p.facts, outcome := OutcomeOf(p.state), cache := p.handler.cache,
                           callLog := p.handler.calls))
  }

  /** The loop of `record`. */
  method RecordWindow(s: Setup, job: Job, handler: EffectHandler, rngs: Rngs, world: World)
    returns (facts: seq<Fact>, state: Doc, raised: Option<ReplayError>)
    requires handler.State() == HandlerState(Mode.Record, map[], []) && rngs.State() == RngState(job.seeds, 0, 0, 0)
    modifies handler, rngs
    ensures RecordUpTo(s, job, |job.obs|, world)
         == if raised.Some? then Raised(raised.value) else Going(facts, state, handler.State(), rngs.State())
  {
    hide Exec;
    facts, state, raised := [], job.initial, None;
    for n := 0 to |job.obs|
      invariant raised.None?
      invariant RecordUpTo(s, job, n, world) == Going(facts, state, handler.State(), rngs.State())
    {
      var res := RunAgent(s, state, job.obs[n], handler, rngs, world);
      if res.Err? {
        RaisedStays(s, job, n + 1, |job.obs|, world);
        raised := Some(res.error);
        return;
      }
      facts := facts + [res.value];
      state := s.apply(state, job.obs[n], res.value.action);
    }
  }

  method Record(s: Setup, job: Job, id: string, world: World) returns (r: Result<Trajectory, ReplayError>)
    ensures var p := RecordUpTo(s, job, |job.obs|, world);
            r == if p.Raised? then Err(p.error) else Ok(Recorded(job, id, p))
  {
    hide RecordUpTo, OutcomeOf;
    var handler := new EffectHandler(Mode.Record, map[], []);
    var rngs := new Rngs(job.seeds);
    var facts, state, raised := RecordWindow(s, job, handler, rngs, world);
    if raised.Some? {
      return Err(raised.value);
    }
    r := Ok(Hashed(Blank(job, id).(facts := facts, outcome := OutcomeOf(state), cache := handler.cache,
                                   callLog := handler.calls)));
  }

  lemma {:induction false} RaisedStays(s: Setup, job: Job, m: nat, n: nat, world: World)
    requires m <= n <= |job.obs|
    ensures RecordUpTo(s, job, m, world).Raised? ==> RecordUpTo(s, job, n, world) == RecordUpTo(s, job, m, world)
    decreases n
  {
    if m < n {
      RaisedStays(s, job, m, n - 1, world);
    }
  }

  // ---- Counterfactual replay --------------------------------------------------------------------

  datatype Field = Action | Obs | LlmOut | State

  /** `_FIELD_MAP`. */
  function FieldOf(name: string): Option<Field> {
    if name == ":action" || name == "action" then Some(Action)
    else if name == ":obs" || name == "obs" then Some(Obs)
    else if name == ":llm-out" || name == "llm-out" || name == "llm_out" then Some(LlmOut)
    else if name == ":state" || name == "state" then Some(State)
    else None
  }

  function Read(f: Fact, field: Field): Doc {
    match field
    case Action => f.action
    case Obs => f.obs
    case LlmOut => f.llmOut
    case State => f.state
  }

  function Write(f: Fact, field: Field, d: Doc): Fact {
    match field
    case Action => f.(action := d)
    case Obs => f.(obs := d)
    case LlmOut => f.(llmOut := d)
    case State => f.(state := d)
  }

  /** The draws an aligned step takes and records. */
  function DrawsAt(gen: Generator, r: RngState): Doc {
    map["expl" := Peek(gen, r, Llm), "env" := Peek(gen, r, Env)]
  }

  function DrawBoth(r: RngState): RngState {
    Advance(Advance(r, Llm), Env)
  }

  /** `_apply_intervention`: the recorded fact with one field replaced and its draws taken afresh. */
  function Intervened(orig: Fact, iv: Intervention, gen: Generator, r: RngState): Result<Fact, ReplayError> {
    match FieldOf(iv.field)
    case None => Err(UnknownField(iv.field))
    case Some(field) => Ok(Write(orig, field, iv.newValue).(draws := DrawsAt(gen, r)))
  }

  /** The checks made before anything runs, in the order made. */
  function Refusal(t: Trajectory, ivs: seq<Intervention>): Option<ReplayError> {
    if t.status.Running? then Some(NotReplayable(t.status))
    else if ivs == [] then Some(NoInterventions)
    else if t.facts == [] then Some(EmptyTrajectory)
    else FirstOutOfRange(ivs, |t.facts|)
  }

  function FirstOutOfRange(ivs: seq<Intervention>, n: nat): (r: Option<ReplayError>)
    ensures r.None? <==> forall iv :: iv in ivs ==> 0 <= iv.step < n
  {
    if ivs == [] then None
    else if ivs[0].step < 0 || ivs[0].step > n - 1 then Some(StepOutOfRange(ivs[0].step))
    else FirstOutOfRange(ivs[1..], n)
  }

  /** The earliest step intervened on. */
  function BranchPoint(ivs: seq<Intervention>): (b: int)
    requires ivs != []
    ensures forall iv :: iv in ivs ==> b <= iv.step
    ensures exists i :: 0 <= i < |ivs| && ivs[i].step == b
  {
    if |ivs| == 1 then ivs[0].step
    else
      var rest := BranchPoint(ivs[1..]);
      if ivs[0].step <= rest then ivs[0].step else rest
  }

  /** The interventions by step; the last one at a step wins. */
  function ByStep(ivs: seq<Intervention>): (m: map<int, Intervention>)
    ensures forall k :: k in m <==> exists i :: 0 <= i < |ivs| && ivs[i].step == k
    ensures forall k :: k in m ==> m[k] in ivs && m[k].step == k
  {
    if ivs == [] then map[]
    else ByStep(ivs[..|ivs| - 1])[ivs[|ivs| - 1].step := ivs[|ivs| - 1]]
  }

  /** Of several interventions on one step only the last takes effect. */
  lemma {:induction false} LastWins(ivs: seq<Intervention>, i: nat)
    requires i < |ivs| && forall j :: i < j < |ivs| ==> ivs[j].step != ivs[i].step
    ensures ivs[i].step in ByStep(ivs) && ByStep(ivs)[ivs[i].step] == ivs[i]
    decreases |ivs|
  {
    if i < |ivs| - 1 {
      LastWins(ivs[..|ivs| - 1], i);
    }
  }

  /** Step `k` of the replay loop. */
  function ReplayStep(s: Setup, p: Progress, k: nat, orig: Fact, branch: int, at: map<int, Intervention>,
                      world: World): Progress
  {
    if p.Raised? then p
    else if k < branch then Push(s, p, orig, orig.obs, p.handler, DrawBoth(p.rngs))
    else if k in at then
      match Intervened(orig, at[k], s.gen, p.rngs)
      case Err(e) => Raised(e)
      case Ok(f) => Push(s, p, f, f.obs, p.handler, DrawBoth(p.rngs))
    else
      match Run(s, p, orig.obs, world)
      case Stopped(e) => Raised(e)
      case Stepped(f, h, r) => Push(s, p, f.(step := k), f.obs, h, r)
  }

  /** `replay` after `n` of the recorded facts. */
  function ReplayUpTo(s: Setup, t: Trajectory, ivs: seq<Intervention>, n: nat, world: World): Progress
    requires n <= |t.facts| && ivs != [] && t.facts != []
  {
    if n == 0 then Start(t.facts[0].state, HandlerState(Mode.Replay, t.cache, t.callLog), t.seeds)
    else ReplayStep(s, ReplayUpTo(s, t, ivs, n - 1, world), n - 1, t.facts[n - 1], BranchPoint(ivs), ByStep(ivs), world)
  }

  /** Step `k`, past the recorded window: simulated, in record mode. */
  function ExtraStep(s: Setup, p: Progress, k: nat, obs: Doc, world: World): Progress {
    if p.Raised? then p
    else
      match Run(s, p, obs, world)
      case Stopped(e) => Raised(e)
      case Stepped(f, h, r) => Push(s, p, f.(step := k), obs, h, r)
  }

  /** `replay` after all recorded facts and `n` extra observations. */
  function ReplayPast(s: Setup, t: Trajectory, ivs: seq<Intervention>, extra: seq<Doc>, n: nat, world: World): Progress
    requires n <= |extra| && ivs != [] && t.facts != []
  {
    if n == 0 then
      var p := ReplayUpTo(s, t, ivs, |t.facts|, world);
      if p.Raised? || extra == [] then p else p.(handler := p.handler.(mode := Mode.Record))
    else ExtraStep(s, ReplayPast(s, t, ivs, extra, n - 1, world), |t.facts| + n - 1, extra[n - 1], world)
  }

  /** The counterfactual `replay` starts from. */
  function Offshoot(t: Trajectory, ivs: seq<Intervention>, id: string): Trajectory
    requires ivs != []
  {
    Trajectory(id, Some(t.id), Some(BranchPoint(ivs)), Some(ivs), t.agent, t.goal, t.seeds, t.wallClockBasis,
               Counterfactual, map[], [], None, t.tags, map[], [], false)
  }

  function Replayed(t: Trajectory, ivs: seq<Intervention>, extra: seq<Doc>, id: string, p: Progress): Trajectory
    requires p.Going? && ivs != []
  {
    Hashed(Offshoot(t, ivs, id).(facts := p.facts, outcome := OutcomeOf(p.state), extrapolated := extra != []))
  }

  function ReplayOf(s: Setup, t: Trajectory, ivs: seq<Intervention>, extra: seq<Doc>, id: string, world: World)
    : Result<Trajectory, ReplayError>
  {
    var refusal := Refusal(t, ivs);
    if refusal.Some? then Err(refusal.value)
    else
      var p := ReplayPast(s, t, ivs, extra, |extra|, world);
      if p.Raised? then Err(p.error) else Ok(Replayed(t, ivs, extra, id, p))
  }

  lemma {:induction false} ReplayRaisedStays(s: Setup, t: Trajectory, ivs: seq<Intervention>, m: nat, n: nat,
                                             world: World)
    requires m <= n <= |t.facts| && ivs != [] && t.facts != []
    ensures ReplayUpTo(s, t, ivs, m, world).Raised?
            ==> ReplayUpTo(s, t, ivs, n, world) == ReplayUpTo(s, t, ivs, m, world)
    decreases n
  {
    if m < n {
      ReplayRaisedStays(s, t, ivs, m, n - 1, world);
    }
  }

  lemma {:induction false} PastRaisedStays(s: Setup, t: Trajectory, ivs: seq<Intervention>, extra: seq<Doc>,
                                           m: nat, n: nat, world: World)
    requires m <= n <= |extra| && ivs != [] && t.facts != []
    ensures ReplayPast(s, t, ivs, extra, m, world).Raised?
        ==> ReplayPast(s, t, ivs, extra, n, world) == ReplayPast(s, t, ivs, extra, m, world)
    decreases n
  {
    if m < n {
      PastRaisedStays(s, t, ivs, extra, m, n - 1, world);
    }
  }

  /** The validation loop over the interventions. */
  method CheckSteps(ivs: seq<Intervention>, n: nat) returns (refusal: Option<ReplayError>)
    ensures refusal == FirstOutOfRange(ivs, n)
  {
    for i := 0 to |ivs|
      invariant FirstOutOfRange(ivs, n) == FirstOutOfRange(ivs[i..], n)
    {
      assert ivs[i..][0] == ivs[i] && ivs[i..][1..] == ivs[i + 1..];
      if ivs[i].step < 0 || ivs[i].step > n - 1 {
        return Some(StepOutOfRange(ivs[i].step));
      }
    }
    refusal := None;
  }

  method IndexSteps(ivs: seq<Intervention>) returns (branch: int, at: map<int, Intervention>)
    requires ivs != []
    ensures branch == BranchPoint(ivs) && at == ByStep(ivs)
  {
    branch, at := ivs[0].step, map[];
    for i := 0 to |ivs|
      invariant forall j :: 0 <= j < i ==> branch <= ivs[j].step
      invariant exists j :: 0 <= j < |ivs| && ivs[j].step == branch
      invariant at == ByStep(ivs[..i])
    {
      assert ivs[..i + 1][..i] == ivs[..i];
      at := at[ivs[i].step := ivs[i]];
      if ivs[i].step < branch {
        branch := ivs[i].step;
      }
    }
    assert ivs[..|ivs|] == ivs;
    assert forall iv :: iv in ivs ==> branch <= iv.step;
  }

  /** `_advance_rngs_to_match`. */
  method AdvanceToMatch(rngs: Rngs, gen: Generator)
    modifies rngs
    ensures rngs.State() == DrawBoth(old(rngs.State()))
  {
    var expl := rngs.Random(gen, Llm);
    var env := rngs.Random(gen, Env);
  }

  /** `_apply_intervention`. */
  method ApplyIntervention(orig: Fact, iv: Intervention, rngs: Rngs, gen: Generator)
    returns (r: Result<Fact, ReplayError>)
    modifies rngs
    ensures r == Intervened(orig, iv, gen, old(rngs.State()))
    ensures r.Ok? ==> rngs.State() == DrawBoth(old(rngs.State()))
  {
    var field := FieldOf(iv.field);
    if field.None? {
      return Err(UnknownField(iv.field));
    }
    hide FieldOf;
    var expl := rngs.Random(gen, Llm);
    var env := rngs.Random(gen, Env);
    r := Ok(Write(orig, field.value, iv.newValue).(draws := map["expl" := expl, "env" := env]));
  }

  /** One turn of the loop of `replay` over the recorded facts. */
  method ReplayOne(s: Setup, k: nat, orig: Fact, state: Doc, branch: int, at: map<int, Intervention>,
                   handler: EffectHandler, rngs: Rngs, world: World) returns (res: Result<Fact, ReplayError>)
    modifies handler, rngs
    ensures forall facts ::
              ReplayStep(s, Going(facts, state, old(handler.State()), old(rngs.State())), k, orig, branch, at, world)
              == match res
                 case Err(e) => Raised(e)
                 case Ok(f) => Push(s, Going(facts, state, old(handler.State()), old(rngs.State())), f, f.obs,
                                    handler.State(), rngs.State())
  {
    hide Exec, Intervened, DrawBoth, Advance, Push;
    if k < branch {
      AdvanceToMatch(rngs, s.gen);
      return Ok(orig);
    }
    if k in at {
      res := ApplyIntervention(orig, at[k], rngs, s.gen);
    } else {
      res := RunAgent(s, state, orig.obs, handler, rngs, world);
      if res.Ok? {
        res := Ok(res.value.(step := k));
      }
    }
  }

  /** The loop of `replay` over the recorded facts. */
  method ReplayWindow(s: Setup, t: Trajectory, ivs: seq<Intervention>, handler: EffectHandler, rngs: Rngs, world: World)
    returns (facts: seq<Fact>, state: Doc, raised: Option<ReplayError>)
    requires ivs != [] && t.facts != []
    requires handler.State() == HandlerState(Mode.Replay, t.cache, t.callLog)
    requires rngs.State() == RngState(t.seeds, 0, 0, 0)
    modifies handler, rngs
    ensures ReplayUpTo(s, t, ivs, |t.facts|, world)
         == if raised.Some? then Raised(raised.value) else Going(facts, state, handler.State(), rngs.State())
  {
    hide ReplayStep, BranchPoint, ByStep, Exec, Intervened, DrawBoth, FieldOf, Refusal;
    var branch, at := IndexSteps(ivs);
    facts, state, raised := [], t.facts[0].state, None;
    for k := 0 to |t.facts|
      invariant raised.None?
      invariant ReplayUpTo(s, t, ivs, k, world) == Going(facts, state, handler.State(), rngs.State())
    {
      ghost var p := Going(facts, state, handler.State(), rngs.State());
      var res := ReplayOne(s, k, t.facts[k], state, branch, at, handler, rngs, world);
      assert ReplayUpTo(s, t, ivs, k + 1, world) == ReplayStep(s, p, k, t.facts[k], branch, at, world);
      if res.Err? {
        ReplayRaisedStays(s, t, ivs, k + 1, |t.facts|, world);
        raised := Some(res.error);
        return;
      }
      facts := facts + [res.value];
      state := s.apply(state, res.value.obs, res.value.action);
    }
  }

  /** The extrapolation loop of `replay`. */
  method ReplayWindowPast(s: Setup, t: Trajectory, ivs: seq<Intervention>, extra: seq<Doc>, prefix: seq<Fact>,
                          from: Doc, handler: EffectHandler, rngs: Rngs, world: World)
    returns (facts: seq<Fact>, state: Doc, raised: Option<ReplayError>)
    requires ivs != [] && t.facts != []
    requires ReplayUpTo(s, t, ivs, |t.facts|, world) == Going(prefix, from, handler.State(), rngs.State())
    modifies handler, rngs
    ensures ReplayPast(s, t, ivs, extra, |extra|, world)
         == if raised.Some? then Raised(raised.value) else Going(facts, state, handler.State(), rngs.State())
  {
    hide Exec, BranchPoint, ByStep, ReplayUpTo;
    facts, state, raised := prefix, from, None;
    if extra != [] {
      handler.mode := Mode.Record;
    }
    for i := 0 to |extra|
      invariant ReplayPast(s, t, ivs, extra, i, world) == Going(facts, state, handler.State(), rngs.State())
    {
      var res := RunAgent(s, state, extra[i], handler, rngs, world);
      if res.Err? {
        PastRaisedStays(s, t, ivs, extra, i + 1, |extra|, world);
        raised := Some(res.error);
        return;
      }
      var fact := res.value.(step := |t.facts| + i);
      facts := facts + [fact];
      state := s.apply(state, extra[i], fact.action);
    }
  }

  method Replay(s: Setup, t: Trajectory, ivs: seq<Intervention>, extra: seq<Doc>, id: string, world: World)
    returns (r: Result<Trajectory, ReplayError>)
    ensures r == ReplayOf(s, t, ivs, extra, id, world)
  {
    if t.status.Running? {
      return Err(NotReplayable(t.status));
    }
    if ivs == [] {
      return Err(NoInterventions);
    }
    if t.facts == [] {
      return Err(EmptyTrajectory);
    }
    var refusal := CheckSteps(ivs, |t.facts|);
    if refusal.Some? {
      return Err(refusal.value);
    }
    var handler := new EffectHandler(Mode.Replay, t.cache, t.callLog);
    var rngs := new Rngs(t.seeds);
    var facts, state, raised := ReplayWindow(s, t, ivs, handler, rngs, world);
    if raised.Some? {
      PastRaisedStays(s, t, ivs, extra, 0, |extra|, world);
      return Err(raised.value);
    }
    facts, state, raised := ReplayWindowPast(s, t, ivs, extra, facts, state, handler, rngs, world);
    if raised.Some? {
      return Err(raised.value);
    }
    r := Ok(Hashed(Offshoot(t, ivs, id).(facts := facts, outcome := OutcomeOf(state), extrapolated := extra != [])));
  }
}
