/** Handler stacks, masks and dispatch (src/persistence/effect/runtime.py), with the replay handler on top. */
module Dispatch {
  import opened Wrappers
  import opened Effects

  datatype Failure = Unhandled | Refused(error: Error) | Failed(message: string) | Diverged

  type Outcome = Result<Doc, Failure>

  /** A handler's own context: the replay handler's live cache and log, or anything else. */
  datatype Ctx = Plain(state: Doc) | Replaying(handler: HandlerState)

  type Ctxs = map<nat, Ctx>

  /** What a clause does next: return, raise, or call its continuation with new arguments. */
  datatype Move = Return(value: Doc) | Raise(failure: Failure) | CallK(args: Args)

  /** A clause: its next move and its context after it, from the arguments, what its calls of the
      continuation gave so far, and its context now. */
  type Clause = (Args, seq<Outcome>, Ctx) -> (Move, Ctx)

  /** A handler; `id` is the identity of the instance, under which its context is kept. */
  datatype Handler = Handler(id: nat, name: string, clauses: map<Op, Clause>)

  /** The candidates of `perform`, outermost first; the last handler of a stack is its outermost. */
  function Candidates(stack: seq<Handler>, masked: set<string>, op: Op): (r: seq<Handler>)
    ensures forall i :: 0 <= i < |r| ==> op in r[i].clauses
  {
    if stack == [] then []
    else
      var h := stack[|stack| - 1];
      (if h.name !in masked && op in h.clauses then [h] else []) + Candidates(stack[..|stack| - 1], masked, op)
  }

  function CtxOf(ctxs: Ctxs, id: nat): Ctx {
    if id in ctxs then ctxs[id] else Plain(map[])
  }

  /** The clause of candidate `pos` going on with the answers `past`, for at most `moves` more moves;
      its continuation is the candidate after it. */
  function Go(cands: seq<Handler>, pos: nat, op: Op, args: Args, past: seq<Outcome>, ctxs: Ctxs, moves: nat, limit: nat)
    : (Outcome, Ctxs)
    requires pos < |cands| && forall i :: 0 <= i < |cands| ==> op in cands[i].clauses
    decreases |cands| - pos, moves
  {
    if moves == 0 then (Err(Diverged), ctxs)
    else
      var h := cands[pos];
      var (move, ctx) := h.clauses[op](args, past, CtxOf(ctxs, h.id));
      var ctxs1 := ctxs[h.id := ctx];
      match move
      case Return(v) => (Ok(v), ctxs1)
      case Raise(e) => (Err(e), ctxs1)
      case CallK(args') =>
        var (out, ctxs2) := if pos + 1 >= |cands| then (Err(Unhandled), ctxs1)
                            else Go(cands, pos + 1, op, args', [], ctxs1, limit, limit);
        Go(cands, pos, op, args, past + [out], ctxs2, moves - 1, limit)
  }

  /** Dispatch over a candidate list. */
  function DispatchTo(cands: seq<Handler>, op: Op, args: Args, ctxs: Ctxs, limit: nat): (Outcome, Ctxs)
    requires forall i :: 0 <= i < |cands| ==> op in cands[i].clauses
  {
    if cands == [] then (Err(Unhandled), ctxs) else Go(cands, 0, op, args, [], ctxs, limit, limit)
  }

  /** The transaction's id, when there is one, travels with the arguments. */
  function Lifted(args: Args, commit: Option<string>): Args {
    if commit.None? then args else args.(rest := args.rest["_txn_commit" := commit.value])
  }

  /** `perform` on a stack under masks. */
  function PerformOn(stack: seq<Handler>, masked: set<string>, op: Op, args: Args, ctxs: Ctxs, limit: nat)
    : (Outcome, Ctxs)
  {
    DispatchTo(Candidates(stack, masked, op), op, args, ctxs, limit)
  }

  /** The first handler of that name. */
  function FirstNamed(stack: seq<Handler>, name: string): (i: nat)
    ensures i <= |stack| && (i < |stack| ==> stack[i].name == name)
    ensures forall j :: 0 <= j < i ==> stack[j].name != name
  {
    if stack == [] then 0
    else
      var i := FirstNamed(stack[..|stack| - 1], name);
      if i < |stack| - 1 || stack[|stack| - 1].name == name then i else |stack|
  }

  /** `named_perform`: straight to the named handler, whatever the masks; its continuation walks down
      the unmasked handlers below it. */
  function NamedOn(stack: seq<Handler>, masked: set<string>, name: string, op: Op, args: Args, ctxs: Ctxs, limit: nat)
    : (Outcome, Ctxs)
  {
    var i := FirstNamed(stack, name);
    if i == |stack| || op !in stack[i].clauses then (Err(Unhandled), ctxs)
    else DispatchTo([stack[i]] + Candidates(stack[..i], masked, op), op, args, ctxs, limit)
  }

  function Union(frames: seq<set<string>>): (r: set<string>)
    ensures forall x :: x in r <==> exists i :: 0 <= i < |frames| && x in frames[i]
  {
    if frames == [] then {} else Union(frames[..|frames| - 1]) + frames[|frames| - 1]
  }

  function Covered(stack: seq<Handler>): (r: set<Op>)
    ensures forall op :: op in r <==> exists i :: 0 <= i < |stack| && op in stack[i].clauses
  {
    if stack == [] then {} else Covered(stack[..|stack| - 1]) + stack[|stack| - 1].clauses.Keys
  }

  lemma {:induction false} CandidatesDown(stack: seq<Handler>, i: nat, masked: set<string>, op: Op)
    requires i < |stack|
    ensures Candidates(stack[..i + 1], masked, op)
         == (if stack[i].name !in masked && op in stack[i].clauses then [stack[i]] else [])
           + Candidates(stack[..i], masked, op)
  {
    assert stack[..i + 1][..i] == stack[..i];
  }

  lemma {:induction false} Regroup(a: seq<Handler>, h: Handler, rest: seq<Handler>)
    ensures a + ([h] + rest) == (a + [h]) + rest && a + ([] + rest) == a + rest
  {}

  lemma {:induction false} NoCandidates(stack: seq<Handler>, masked: set<string>, op: Op)
    requires stack == []
    ensures Candidates(stack, masked, op) == []
  {}

  class Runtime {
    const handlers: seq<Handler>
    /** How many moves a clause makes before it returns. */
    const limit: nat
    var masks: seq<set<string>>
    var ctxs: Ctxs

    constructor (handlers: seq<Handler>, ctxs: Ctxs, limit: nat)
      ensures this.handlers == handlers && this.limit == limit && this.ctxs == ctxs && masks == []
    {
      this.handlers, this.limit, this.ctxs, masks := handlers, limit, ctxs, [];
    }

    method UncoveredOps(catalog: set<Op>) returns (r: set<Op>)
      ensures r == catalog - Covered(handlers)
    {
      var covered: set<Op> := {};
      for i := 0 to |handlers|
        invariant covered == Covered(handlers[..i])
      {
        assert handlers[..i + 1][..i] == handlers[..i];
        covered := covered + handlers[i].clauses.Keys;
      }
      assert handlers[..|handlers|] == handlers;
      r := catalog - covered;
    }

    method MaskedNames() returns (r: set<string>)
      ensures r == Union(masks)
    {
      r := {};
      for i := 0 to |masks|
        invariant r == Union(masks[..i])
      {
        assert masks[..i + 1][..i] == masks[..i];
        r := r + masks[i];
      }
      assert masks[..|masks|] == masks;
    }

    /** Entering a mask block; the token is what leaving it restores. */
    method PushMask(names: set<string>) returns (token: seq<set<string>>)
      modifies this`masks
      ensures token == old(masks) && Union(masks) == Union(old(masks)) + names
    {
      token := masks;
      masks := masks + [names];
      assert masks[..|token|] == token;
    }

    method PopMask(token: seq<set<string>>)
      modifies this`masks
      ensures masks == token
    {
      masks := token;
    }

    /** The candidate loop, from handler `top` down. */
    method Collect(top: nat, masked: set<string>, op: Op) returns (cands: seq<Handler>)
      requires top <= |handlers|
      ensures cands == Candidates(handlers[..top], masked, op)
    {
      hide Candidates;
      cands := [];
      for i := top downto 0
        invariant cands + Candidates(handlers[..i], masked, op) == Candidates(handlers[..top], masked, op)
      {
        CandidatesDown(handlers, i, masked, op);
        var h := handlers[i];
        Regroup(cands, h, Candidates(handlers[..i], masked, op));
        if h.name in masked {
          continue;
        }
        if op in h.clauses {
          cands := cands + [h];
        }
      }
      NoCandidates(handlers[..0], masked, op);
    }

    method Perform(op: Op, args: Args, commit: Option<string>) returns (out: Outcome)
      modifies this`ctxs
      ensures (out, ctxs) == PerformOn(handlers, Union(masks), op, Lifted(args, commit), old(ctxs), limit)
    {
      hide Union, Lifted, Go, Candidates;
      var lifted := Lifted(args, commit);
      var masked := MaskedNames();
      var cands := Collect(|handlers|, masked, op);
      assert handlers[..|handlers|] == handlers;
      if cands == [] {
        return Err(Unhandled);
      }
      var (o, after) := Go(cands, 0, op, lifted, [], ctxs, limit, limit);
      ctxs := after;
      out := o;
    }

    method NamedPerform(name: string, op: Op, args: Args) returns (out: Outcome)
      modifies this`ctxs
      ensures (out, ctxs) == NamedOn(handlers, Union(masks), name, op, args, old(ctxs), limit)
    {
      hide Union, Go, Candidates, FirstNamed;
      var target := Find(name);
      if target == |handlers| || op !in handlers[target].clauses {
        return Err(Unhandled);
      }
      var masked := MaskedNames();
      var below := Collect(target, masked, op);
      var (o, after) := Go([handlers[target]] + below, 0, op, args, [], ctxs, limit, limit);
      ctxs := after;
      out := o;
    }

    method Find(name: string) returns (i: nat)
      ensures i == FirstNamed(handlers, name)
    {
      i := 0;
      while i < |handlers|
        invariant i <= |handlers| && forall j :: 0 <= j < i ==> handlers[j].name != name
      {
        if handlers[i].name == name {
          return;
        }
        i := i + 1;
      }
    }
  }

  // ---- Masks, names and coverage ------------------------------------------------------------

  /** The stack without the masked handlers. */
  function Unmasked(stack: seq<Handler>, masked: set<string>): seq<Handler> {
    if stack == [] then []
    else
      var h := stack[|stack| - 1];
      Unmasked(stack[..|stack| - 1], masked) + if h.name in masked then [] else [h]
  }

  lemma {:induction false} CandidatesSnoc(rest: seq<Handler>, h: Handler, masked: set<string>, op: Op)
    ensures Candidates(rest + [h], masked, op)
         == (if h.name !in masked && op in h.clauses then [h] else []) + Candidates(rest, masked, op)
    ensures Unmasked(rest + [h], masked) ==
            if h.name in masked then Unmasked(rest, masked) else Unmasked(rest, masked) + [h]
  {
    assert (rest + [h])[..|rest|] == rest;
  }

  lemma {:induction false} CandidatesUnmasked(stack: seq<Handler>, masked: set<string>, op: Op)
    ensures Candidates(stack, masked, op) == Candidates(Unmasked(stack, masked), {}, op)
    decreases |stack|
  {
    if stack != [] {
      hide Candidates, Unmasked;
      var init, h := stack[..|stack| - 1], stack[|stack| - 1];
      CandidatesUnmasked(init, masked, op);
      assert stack == init + [h];
      CandidatesSnoc(init, h, masked, op);
      CandidatesSnoc(Unmasked(init, masked), h, {}, op);
    }
  }

  /** Performing under masks is performing on the stack with the masked handlers taken out. */
  lemma {:induction false} MasksRemove(stack: seq<Handler>, masked: set<string>, op: Op, args: Args, ctxs: Ctxs,
                                       limit: nat)
    ensures PerformOn(stack, masked, op, args, ctxs, limit)
            == PerformOn(Unmasked(stack, masked), {}, op, args, ctxs, limit)
  {
    hide Candidates, Go;
    CandidatesUnmasked(stack, masked, op);
  }

  /** Performing by name on the first handler of that name is performing on the stack cut off above
      it, if that handler is not masked; if it is masked, it is performed on all the same, above
      what the masks leave of the stack below it. */
  lemma {:induction false} NamesCut(stack: seq<Handler>, masked: set<string>, name: string, op: Op, args: Args,
                                    ctxs: Ctxs, limit: nat)
    requires FirstNamed(stack, name) < |stack| && op in stack[FirstNamed(stack, name)].clauses
    ensures var i := FirstNamed(stack, name);
            NamedOn(stack, masked, name, op, args, ctxs, limit)
            == PerformOn(Unmasked(stack[..i], masked) + [stack[i]], {}, op, args, ctxs, limit)
    ensures var i := FirstNamed(stack, name);
            name !in masked ==> NamedOn(stack, masked, name, op, args, ctxs, limit)
                                == PerformOn(stack[..i + 1], masked, op, args, ctxs, limit)
  {
    hide Go, FirstNamed, Unmasked;
    var i := FirstNamed(stack, name);
    var below := Unmasked(stack[..i], masked);
    CandidatesUnmasked(stack[..i], masked, op);
    CandidatesDown(stack, i, masked, op);
    assert (below + [stack[i]])[..|below|] == below;
  }

  /** An unmasked stack finds a handler for an op of the catalog exactly when the op is not among
      the uncovered ones; so on a well-formed stack every op of the catalog reaches a clause. */
  lemma {:induction false} CoveredOpsReachAClause(stack: seq<Handler>, catalog: set<Op>, op: Op)
    requires op in catalog
    ensures Candidates(stack, {}, op) != [] <==> op !in catalog - Covered(stack)
  {
    if stack != [] {
      CoveredOpsReachAClause(stack[..|stack| - 1], catalog, op);
    }
  }

  // ---- The record/replay handler on top of a stack ---------------------------------------------

  /** The clause `make_replay_handler` builds for `op` (src/persistence/replay/effect_handler.py:284-316): a
      cached reply, a refusal, or the reply of the stack below, remembered. */
  function ReplayMove(op: Op, args: Args, past: seq<Outcome>, ctx: Ctx): (Move, Ctx) {
    match ctx
    case Plain(_) => (Raise(Failed("no replay context")), ctx)
    case Replaying(s) =>
      if past == [] then
        match Decide(s, op, args)
        case Hit(r) => (Return(r), ctx)
        case Fail(e) => (Raise(Refused(e)), ctx)
        case Execute => (CallK(args), ctx)
      else
        match past[|past| - 1]
        case Ok(v) => (Return(v), Replaying(Remembered(s, op, args, v)))
        case Err(e) => (Raise(e), ctx)
  }

  /** `make_replay_handler`. */
  function ReplayHandler(id: nat, wraps: set<Op>): Handler {
    Handler(id, "replay",
            map op | op in wraps :: (args: Args, past: seq<Outcome>, ctx: Ctx) => ReplayMove(op, args, past, ctx))
  }

  predicate HasId(stack: seq<Handler>, id: nat) {
    exists i :: 0 <= i < |stack| && stack[i].id == id
  }

  /** Dispatch touches no context but those of its candidates. */
  lemma {:induction false} GoFrames(cands: seq<Handler>, pos: nat, op: Op, args: Args, past: seq<Outcome>, ctxs: Ctxs,
                                    moves: nat, limit: nat, id: nat)
    requires pos < |cands| && forall i :: 0 <= i < |cands| ==> op in cands[i].clauses
    requires !HasId(cands, id)
    ensures CtxOf(Go(cands, pos, op, args, past, ctxs, moves, limit).1, id) == CtxOf(ctxs, id)
    decreases |cands| - pos, moves
  {
    if moves > 0 {
      var h := cands[pos];
      var (move, ctx) := h.clauses[op](args, past, CtxOf(ctxs, h.id));
      var ctxs1 := ctxs[h.id := ctx];
      if move.CallK? {
        if pos + 1 >= |cands| {
          GoFrames(cands, pos, op, args, past + [Err(Unhandled)], ctxs1, moves - 1, limit, id);
        } else {
          var (out, ctxs2) := Go(cands, pos + 1, op, move.args, [], ctxs1, limit, limit);
          GoFrames(cands, pos + 1, op, move.args, [], ctxs1, limit, limit, id);
          GoFrames(cands, pos, op, args, past + [out], ctxs2, moves - 1, limit, id);
        }
      }
    }
  }

  /** A candidate's position counts from the candidates after it. */
  lemma {:induction false} GoShifts(top: Handler, cands: seq<Handler>, pos: nat, op: Op, args: Args, past: seq<Outcome>,
                                    ctxs: Ctxs, moves: nat, limit: nat)
    requires pos < |cands| && op in top.clauses && forall i :: 0 <= i < |cands| ==> op in cands[i].clauses
    ensures Go([top] + cands, pos + 1, op, args, past, ctxs, moves, limit)
            == Go(cands, pos, op, args, past, ctxs, moves, limit)
    decreases |cands| - pos, moves
  {
    if moves > 0 {
      var h := cands[pos];
      var (move, ctx) := h.clauses[op](args, past, CtxOf(ctxs, h.id));
      var ctxs1 := ctxs[h.id := ctx];
      if move.CallK? {
        if pos + 1 >= |cands| {
          GoShifts(top, cands, pos, op, args, past + [Err(Unhandled)], ctxs1, moves - 1, limit);
        } else {
          var (out, ctxs2) := Go(cands, pos + 1, op, move.args, [], ctxs1, limit, limit);
          GoShifts(top, cands, pos + 1, op, move.args, [], ctxs1, limit, limit);
          GoShifts(top, cands, pos, op, args, past + [out], ctxs2, moves - 1, limit);
        }
      }
    }
  }

  // ---- Continuations -------------------------------------------------------------------------

  /** The clause of `top` going on with the answers `past`, each call of its continuation being a `perform` of the
      arguments it passes on the stack `lower`. */
  function Asking(top: Handler, lower: seq<Handler>, masked: set<string>, op: Op, args: Args, past: seq<Outcome>,
                  ctxs: Ctxs, moves: nat, limit: nat): (Outcome, Ctxs)
    requires op in top.clauses
    decreases moves
  {
    if moves == 0 then (Err(Diverged), ctxs)
    else
      var (move, ctx) := top.clauses[op](args, past, CtxOf(ctxs, top.id));
      match move
      case Return(v) => (Ok(v), ctxs[top.id := ctx])
      case Raise(e) => (Err(e), ctxs[top.id := ctx])
      case CallK(given) =>
        var (out, after) := PerformOn(lower, masked, op, given, ctxs[top.id := ctx], limit);
        Asking(top, lower, masked, op, args, past + [out], after, moves - 1, limit)
  }

  lemma {:induction false} GoIsAsking(top: Handler, lower: seq<Handler>, masked: set<string>, op: Op, args: Args,
                                      past: seq<Outcome>, ctxs: Ctxs, moves: nat, limit: nat)
    requires op in top.clauses
    ensures Go([top] + Candidates(lower, masked, op), 0, op, args, past, ctxs, moves, limit)
         == Asking(top, lower, masked, op, args, past, ctxs, moves, limit)
    decreases moves
  {
    hide Candidates;
    if moves > 0 {
      var below := Candidates(lower, masked, op);
      var (move, ctx) := top.clauses[op](args, past, CtxOf(ctxs, top.id));
      var ctxs1 := ctxs[top.id := ctx];
      if move.CallK? {
        var (out, after) := PerformOn(lower, masked, op, move.args, ctxs1, limit);
        if below != [] {
          GoShifts(top, below, 0, op, move.args, [], ctxs1, limit, limit);
        }
        GoIsAsking(top, lower, masked, op, args, past + [out], after, moves - 1, limit);
      }
    }
  }

  /** Inside a transaction its id is put under one key of the arguments and nothing else changes; outside nothing
      does. */
  lemma {:induction false} LiftedAddsTheCommit(args: Args, commit: Option<string>)
    ensures Lifted(args, commit).promptHash == args.promptHash
    ensures commit.Some? ==> Lifted(args, commit).rest == args.rest["_txn_commit" := commit.value]
    ensures commit.None? ==> Lifted(args, commit) == args
  {}

  /** What `perform` means, handler by handler: nothing handles an op on the empty stack; a handler that is masked or
      has no clause for the op is passed over; else the outermost handler's clause answers, and its continuation
      performs on the stack below it the arguments it is called with. */
  lemma {:induction false} PerformsFromTheTop(lower: seq<Handler>, top: Handler, masked: set<string>, op: Op,
                                              args: Args, ctxs: Ctxs, limit: nat)
    ensures PerformOn([], masked, op, args, ctxs, limit) == (Err(Unhandled), ctxs)
    ensures PerformOn(lower + [top], masked, op, args, ctxs, limit) ==
            if top.name in masked || op !in top.clauses then PerformOn(lower, masked, op, args, ctxs, limit)
            else Asking(top, lower, masked, op, args, [], ctxs, limit, limit)
  {
    hide Go, Asking;
    CandidatesSnoc(lower, top, masked, op);
    assert [] + Candidates(lower, masked, op) == Candidates(lower, masked, op);
    if top.name !in masked && op in top.clauses {
      GoIsAsking(top, lower, masked, op, args, [], ctxs, limit, limit);
    }
  }

  /** By name the named handler's clause answers, masked or not, over what the masks leave of the stack below. */
  lemma {:induction false} NamedPerformsFromIt(stack: seq<Handler>, masked: set<string>, name: string, op: Op,
                                               args: Args, ctxs: Ctxs, limit: nat)
    ensures var i := FirstNamed(stack, name);
            NamedOn(stack, masked, name, op, args, ctxs, limit) ==
            if i == |stack| || op !in stack[i].clauses then (Err(Unhandled), ctxs)
            else Asking(stack[i], stack[..i], masked, op, args, [], ctxs, limit, limit)
  {
    hide Go, Asking, FirstNamed, Candidates;
    var i := FirstNamed(stack, name);
    if i < |stack| && op in stack[i].clauses {
      GoIsAsking(stack[i], stack[..i], masked, op, args, [], ctxs, limit, limit);
    }
  }

  /** The clause of `top` calls its continuation once, with `given`, and hands on what comes back. */
  ghost predicate Forwards(top: Handler, op: Op, args: Args, given: Args)
    requires op in top.clauses
  {
    && (forall ctx: Ctx :: top.clauses[op](args, [], ctx).0 == CallK(given))
    && (forall ctx: Ctx, out: Outcome ::
          top.clauses[op](args, [out], ctx).0 == if out.Ok? then Return(out.value) else Raise(out.error))
  }

  /** The context of an instance no candidate has makes no difference to them. */
  lemma {:induction false} GoIgnores(cands: seq<Handler>, pos: nat, op: Op, args: Args, past: seq<Outcome>, ctxs: Ctxs,
                                     moves: nat, limit: nat, id: nat, x: Ctx)
    requires pos < |cands| && forall i :: 0 <= i < |cands| ==> op in cands[i].clauses
    requires !HasId(cands, id)
    ensures var (out, after) := Go(cands, pos, op, args, past, ctxs, moves, limit);
            Go(cands, pos, op, args, past, ctxs[id := x], moves, limit) == (out, after[id := x])
    decreases |cands| - pos, moves
  {
    if moves > 0 {
      var h := cands[pos];
      assert h.id != id && CtxOf(ctxs[id := x], h.id) == CtxOf(ctxs, h.id);
      var (move, ctx) := h.clauses[op](args, past, CtxOf(ctxs, h.id));
      var ctxs1 := ctxs[h.id := ctx];
      assert ctxs[id := x][h.id := ctx] == ctxs1[id := x];
      if move.CallK? {
        if pos + 1 >= |cands| {
          GoIgnores(cands, pos, op, args, past + [Err(Unhandled)], ctxs1, moves - 1, limit, id, x);
        } else {
          var (out, ctxs2) := Go(cands, pos + 1, op, move.args, [], ctxs1, limit, limit);
          GoIgnores(cands, pos + 1, op, move.args, [], ctxs1, limit, limit, id, x);
          GoIgnores(cands, pos, op, args, past + [out], ctxs2, moves - 1, limit, id, x);
        }
      }
    }
  }

  lemma {:induction false} PerformIgnores(stack: seq<Handler>, masked: set<string>, op: Op, args: Args, ctxs: Ctxs,
                                          limit: nat, id: nat, x: Ctx)
    requires !HasId(stack, id)
    ensures var (out, after) := PerformOn(stack, masked, op, args, ctxs, limit);
            PerformOn(stack, masked, op, args, ctxs[id := x], limit) == (out, after[id := x])
  {
    hide Go, Candidates, HasId;
    var cands := Candidates(stack, masked, op);
    CandidatesHaveNot(stack, masked, op, id);
    if cands != [] {
      GoIgnores(cands, 0, op, args, [], ctxs, limit, limit, id, x);
    }
  }

  lemma {:induction false} AskingForwards(lower: seq<Handler>, top: Handler, masked: set<string>, op: Op, args: Args,
                                          given: Args, ctxs: Ctxs, limit: nat)
    requires op in top.clauses && Forwards(top, op, args, given) && !HasId(lower, top.id) && limit >= 2
    ensures var (out, after) := PerformOn(lower, masked, op, given, ctxs, limit);
            var r := Asking(top, lower, masked, op, args, [], ctxs, limit, limit);
            r.0 == out && r.1 == after[top.id := CtxOf(r.1, top.id)]
  {
    hide PerformOn, HasId;
    var ctx := top.clauses[op](args, [], CtxOf(ctxs, top.id)).1;
    var (out, after) := PerformOn(lower, masked, op, given, ctxs, limit);
    PerformIgnores(lower, masked, op, given, ctxs, limit, top.id, ctx);
    assert top.clauses[op](args, [], CtxOf(ctxs, top.id)).0 == CallK(given);
    var ctxs2 := after[top.id := ctx];
    assert [] + [out] == [out];
    assert Asking(top, lower, masked, op, args, [], ctxs, limit, limit)
        == Asking(top, lower, masked, op, args, [out], ctxs2, limit - 1, limit);
    var (move, ctx') := top.clauses[op](args, [out], CtxOf(ctxs2, top.id));
    assert move == if out.Ok? then Return(out.value) else Raise(out.error);
    assert ctxs2[top.id := ctx'] == after[top.id := ctx'];
  }

  /** A handler on top that forwards other arguments: performing on the taller stack comes back with what performing
      those arguments on the stack below comes back with, and leaves every other context as that does. By
      name it is the same over the stack below the named handler. */
  lemma {:induction false} ForwardsWhatItPasses(lower: seq<Handler>, top: Handler, masked: set<string>, op: Op,
                                                args: Args, given: Args, ctxs: Ctxs, limit: nat)
    requires top.name !in masked && op in top.clauses && Forwards(top, op, args, given)
    requires !HasId(lower, top.id) && limit >= 2
    ensures var (out, after) := PerformOn(lower, masked, op, given, ctxs, limit);
            var r := PerformOn(lower + [top], masked, op, args, ctxs, limit);
            r.0 == out && r.1 == after[top.id := CtxOf(r.1, top.id)]
  {
    hide PerformOn, HasId, Forwards, Asking;
    PerformsFromTheTop(lower, top, masked, op, args, ctxs, limit);
    AskingForwards(lower, top, masked, op, args, given, ctxs, limit);
  }

  lemma {:induction false} NamedForwardsWhatItPasses(stack: seq<Handler>, masked: set<string>, name: string, op: Op,
                                                     args: Args, given: Args, ctxs: Ctxs, limit: nat)
    requires FirstNamed(stack, name) < |stack| && limit >= 2
    requires var top := stack[FirstNamed(stack, name)];
             op in top.clauses && Forwards(top, op, args, given) && !HasId(stack[..FirstNamed(stack, name)], top.id)
    ensures var i := FirstNamed(stack, name);
            var (out, after) := PerformOn(stack[..i], masked, op, given, ctxs, limit);
            var r := NamedOn(stack, masked, name, op, args, ctxs, limit);
            r.0 == out && r.1 == after[stack[i].id := CtxOf(r.1, stack[i].id)]
  {
    hide PerformOn, NamedOn, HasId, Forwards, Asking, FirstNamed;
    var i := FirstNamed(stack, name);
    NamedPerformsFromIt(stack, masked, name, op, args, ctxs, limit);
    AskingForwards(stack[..i], stack[i], masked, op, args, given, ctxs, limit);
  }

  // ---- The replay clause ----------------------------------------------------------------------------

  /** What performing a wrapped op does on a stack whose outermost handler is the replay handler. */
  function ThroughReplay(lower: seq<Handler>, id: nat, s: HandlerState, op: Op, args: Args, ctxs: Ctxs, limit: nat)
    : (Outcome, Ctxs)
  {
    match Decide(s, op, args)
    case Hit(r) => (Ok(r), ctxs)
    case Fail(e) => (Err(Refused(e)), ctxs)
    case Execute =>
      var (out, after) := PerformOn(lower, {}, op, args, ctxs, limit);
      match out
      case Ok(v) => (out, after[id := Replaying(Remembered(s, op, args, v))])
      case Err(_) => (out, after)
  }

  /** The replay clause on a miss it may execute: it calls its continuation once, with the same
      arguments. */
  lemma {:induction false} TopCalls(below: seq<Handler>, id: nat, wraps: set<Op>, s: HandlerState, op: Op, args: Args,
                                    ctxs: Ctxs, limit: nat)
    requires op in wraps && limit >= 2 && id in ctxs && ctxs[id] == Replaying(s) && Decide(s, op, args).Execute?
    requires forall i :: 0 <= i < |below| ==> op in below[i].clauses
    ensures var (cands, (out, after)) := ([ReplayHandler(id, wraps)] + below, DispatchTo(below, op, args, ctxs, limit));
            Go(cands, 0, op, args, [], ctxs, limit, limit) == Go(cands, 0, op, args, [out], after, limit - 1, limit)
  {
    hide Decide;
    var top := ReplayHandler(id, wraps);
    var cands := [top] + below;
    var (out, after) := DispatchTo(below, op, args, ctxs, limit);
    assert ctxs[id := Replaying(s)] == ctxs;
    assert top.clauses[op](args, [], CtxOf(ctxs, id)) == (CallK(args), Replaying(s));
    if below != [] {
      GoShifts(top, below, 0, op, args, [], ctxs, limit, limit);
    }
    assert [] + [out] == [out];
  }

  /** What the continuation gave, it returns, remembering a value. */
  lemma {:induction false} TopReturns(below: seq<Handler>, id: nat, wraps: set<Op>, s: HandlerState, op: Op, args: Args,
                                      out: Outcome, after: Ctxs, limit: nat)
    requires op in wraps && limit >= 2 && id in after && after[id] == Replaying(s)
    requires forall i :: 0 <= i < |below| ==> op in below[i].clauses
    ensures Go([ReplayHandler(id, wraps)] + below, 0, op, args, [out], after, limit - 1, limit)
         == (out, if out.Ok? then after[id := Replaying(Remembered(s, op, args, out.value))] else after)
  {
    hide Decide, Remembered;
    assert after[id := Replaying(s)] == after;
  }

  /** A hit or a refusal calls nothing. */
  lemma {:induction false} TopAnswers(below: seq<Handler>, id: nat, wraps: set<Op>, s: HandlerState, op: Op, args: Args,
                                      ctxs: Ctxs, limit: nat)
    requires op in wraps && limit >= 2 && id in ctxs && ctxs[id] == Replaying(s) && !Decide(s, op, args).Execute?
    requires forall i :: 0 <= i < |below| ==> op in below[i].clauses
    ensures Go([ReplayHandler(id, wraps)] + below, 0, op, args, [], ctxs, limit, limit)
         == (if Decide(s, op, args).Hit? then Ok(Decide(s, op, args).result)
             else Err(Refused(Decide(s, op, args).error)), ctxs)
  {
    hide Decide;
    assert ctxs[id := Replaying(s)] == ctxs;
  }

  lemma {:induction false} ReplayOnTop(lower: seq<Handler>, id: nat, wraps: set<Op>, s: HandlerState, op: Op,
                                       args: Args, ctxs: Ctxs, limit: nat)
    requires op in wraps && limit >= 2 && !HasId(lower, id) && id in ctxs && ctxs[id] == Replaying(s)
    ensures PerformOn(lower + [ReplayHandler(id, wraps)], {}, op, args, ctxs, limit)
         == ThroughReplay(lower, id, s, op, args, ctxs, limit)
  {
    hide Decide, Remembered, Candidates, HasId, Go;
    var below := Candidates(lower, {}, op);
    CandidatesSnoc(lower, ReplayHandler(id, wraps), {}, op);
    if Decide(s, op, args).Execute? {
      CandidatesHaveNot(lower, {}, op, id);
      var (out, after) := DispatchTo(below, op, args, ctxs, limit);
      if below != [] {
        GoFrames(below, 0, op, args, [], ctxs, limit, limit, id);
        GoKeepsIds(below, 0, op, args, [], ctxs, limit, limit, id);
      }
      TopCalls(below, id, wraps, s, op, args, ctxs, limit);
      TopReturns(below, id, wraps, s, op, args, out, after, limit);
    } else {
      TopAnswers(below, id, wraps, s, op, args, ctxs, limit);
    }
  }

  lemma {:induction false} CandidatesHaveNot(stack: seq<Handler>, masked: set<string>, op: Op, id: nat)
    requires !HasId(stack, id)
    ensures !HasId(Candidates(stack, masked, op), id)
    decreases |stack|
  {
    if stack != [] {
      var init := stack[..|stack| - 1];
      assert forall i :: 0 <= i < |init| ==> init[i] == stack[i];
      CandidatesHaveNot(init, masked, op, id);
    }
  }

  // ---- Recording through a stack, and replaying over another ------------------------------------------

  /** The contexts after the first `n` ops of a sequence. */
  function CtxsAfter(stack: seq<Handler>, reqs: seq<Key>, n: nat, ctxs: Ctxs, limit: nat): Ctxs
    requires n <= |reqs|
  {
    if n == 0 then ctxs
    else PerformOn(stack, {}, reqs[n - 1].0, reqs[n - 1].1, CtxsAfter(stack, reqs, n - 1, ctxs, limit), limit).1
  }

  /** What op `i` of the sequence comes back with. */
  function ReplyTo(stack: seq<Handler>, reqs: seq<Key>, i: nat, ctxs: Ctxs, limit: nat): Outcome
    requires i < |reqs|
  {
    PerformOn(stack, {}, reqs[i].0, reqs[i].1, CtxsAfter(stack, reqs, i, ctxs, limit), limit).0
  }

  /** The replay handler with context `id` is in order, and holds what `s` held. */
  ghost predicate Grew(s: HandlerState, ctxs: Ctxs, id: nat) {
    && id in ctxs && ctxs[id].Replaying? && ctxs[id].handler.mode == s.mode
    && CacheWithin(s.cache, ctxs[id].handler.cache)
  }

  /** One op through the replay handler: its context stays in order and only grows, and a reply is
      what its cache then holds. */
  lemma {:induction false} ThroughReplayGrows(lower: seq<Handler>, id: nat, wraps: set<Op>, s: HandlerState, op: Op,
                                              args: Args, ctxs: Ctxs, limit: nat)
    requires op in wraps && limit >= 2 && !HasId(lower, id) && id in ctxs && ctxs[id] == Replaying(s)
    ensures var (out, after) := PerformOn(lower + [ReplayHandler(id, wraps)], {}, op, args, ctxs, limit);
            Grew(s, after, id)
            && (out.Ok? ==> (op, args) in after[id].handler.cache && after[id].handler.cache[(op, args)] == out.value)
  {
    hide Go, Candidates, HasId, Drifted;
    ReplayOnTop(lower, id, wraps, s, op, args, ctxs, limit);
    if Decide(s, op, args).Execute? {
      var cands := Candidates(lower, {}, op);
      CandidatesHaveNot(lower, {}, op, id);
      if cands != [] {
        GoFrames(cands, 0, op, args, [], ctxs, limit, limit, id);
        GoKeepsIds(cands, 0, op, args, [], ctxs, limit, limit, id);
      }
    }
  }

  lemma {:induction false} GoKeepsIds(cands: seq<Handler>, pos: nat, op: Op, args: Args, past: seq<Outcome>, ctxs: Ctxs,
                                      moves: nat, limit: nat, id: nat)
    requires pos < |cands| && id in ctxs && forall i :: 0 <= i < |cands| ==> op in cands[i].clauses
    ensures id in Go(cands, pos, op, args, past, ctxs, moves, limit).1
    decreases |cands| - pos, moves
  {
    if moves > 0 {
      var h := cands[pos];
      var (move, ctx) := h.clauses[op](args, past, CtxOf(ctxs, h.id));
      var ctxs1 := ctxs[h.id := ctx];
      if move.CallK? {
        if pos + 1 >= |cands| {
          GoKeepsIds(cands, pos, op, args, past + [Err(Unhandled)], ctxs1, moves - 1, limit, id);
        } else {
          GoKeepsIds(cands, pos + 1, op, move.args, [], ctxs1, limit, limit, id);
          var (out, ctxs2) := Go(cands, pos + 1, op, move.args, [], ctxs1, limit, limit);
          GoKeepsIds(cands, pos, op, args, past + [out], ctxs2, moves - 1, limit, id);
        }
      }
    }
  }

  /** Over a sequence of wrapped ops the replay handler's context only grows. */
  lemma {:induction false} SequenceGrows(lower: seq<Handler>, id: nat, wraps: set<Op>, s: HandlerState, reqs: seq<Key>,
                                         m: nat, n: nat, ctxs: Ctxs, limit: nat)
    requires m <= n <= |reqs| && limit >= 2 && !HasId(lower, id) && id in ctxs && ctxs[id] == Replaying(s)
    requires forall i :: 0 <= i < |reqs| ==> reqs[i].0 in wraps
    ensures var stack := lower + [ReplayHandler(id, wraps)];
            var a, b := CtxsAfter(stack, reqs, m, ctxs, limit), CtxsAfter(stack, reqs, n, ctxs, limit);
            Grew(s, a, id) && Grew(a[id].handler, b, id)
    decreases n
  {
    hide PerformOn, HasId, ReplayHandler;
    if n > 0 {
      var stack := lower + [ReplayHandler(id, wraps)];
      SequenceGrows(lower, id, wraps, s, reqs, if m < n then m else n - 1, n - 1, ctxs, limit);
      var mid := CtxsAfter(stack, reqs, n - 1, ctxs, limit);
      ThroughReplayGrows(lower, id, wraps, mid[id].handler, reqs[n - 1].0, reqs[n - 1].1, mid, limit);
    }
  }

  /** A sequence of wrapped ops, every one of which came back with a value when it was performed
      through a replay handler over one stack, comes back with the same values through a replay
      handler in replay mode that holds what the first one cached, over any other stack, whose
      handlers are never called. */
  lemma {:induction false} RecordedStackReplays(lower: seq<Handler>, id: nat, wraps: set<Op>, s: HandlerState,
                                                reqs: seq<Key>, ctxs: Ctxs, lower': seq<Handler>, id': nat,
                                                s': HandlerState, ctxs': Ctxs, n: nat, limit: nat)
    requires n <= |reqs| && limit >= 2 && (forall i :: 0 <= i < |reqs| ==> reqs[i].0 in wraps)
    requires !HasId(lower, id) && id in ctxs && ctxs[id] == Replaying(s)
    requires !HasId(lower', id') && id' in ctxs' && ctxs'[id'] == Replaying(s')
    requires var stack := lower + [ReplayHandler(id, wraps)];
             && (forall i :: 0 <= i < |reqs| ==> ReplyTo(stack, reqs, i, ctxs, limit).Ok?)
             && Grew(s, CtxsAfter(stack, reqs, |reqs|, ctxs, limit), id)
             && CacheWithin(CtxsAfter(stack, reqs, |reqs|, ctxs, limit)[id].handler.cache, s'.cache)
    ensures var stack' := lower' + [ReplayHandler(id', wraps)];
            && CtxsAfter(stack', reqs, n, ctxs', limit) == ctxs'
            && forall i :: 0 <= i < n ==> ReplyTo(stack', reqs, i, ctxs', limit)
                                          == ReplyTo(lower + [ReplayHandler(id, wraps)], reqs, i, ctxs, limit)
  {
    hide PerformOn, HasId, ReplayHandler, Drifted;
    if n > 0 {
      RecordedStackReplays(lower, id, wraps, s, reqs, ctxs, lower', id', s', ctxs', n - 1, limit);
      var i := n - 1;
      var stack := lower + [ReplayHandler(id, wraps)];
      SequenceGrows(lower, id, wraps, s, reqs, i, |reqs|, ctxs, limit);
      SequenceGrows(lower, id, wraps, s, reqs, i + 1, |reqs|, ctxs, limit);
      var here := CtxsAfter(stack, reqs, i, ctxs, limit);
      ThroughReplayGrows(lower, id, wraps, here[id].handler, reqs[i].0, reqs[i].1, here, limit);
      assert ReplyTo(stack, reqs, i, ctxs, limit).Ok?;
      ReplayOnTop(lower', id', wraps, s', reqs[i].0, reqs[i].1, ctxs', limit);
    }
  }
}
