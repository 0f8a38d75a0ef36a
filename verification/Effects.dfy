/** The record/replay effect handler (src/persistence/replay/effect_handler.py:36-195). */
module Effects {
  import opened Wrappers

  /** Catalog names, those the handler singles out and all others. */
  datatype Op = LlmCall | NetFetch | ToolCall | Other(name: string)

  /** An argument dictionary: the prompt hash, if it has one, and everything else. */
  datatype Args = Args(promptHash: Option<string>, rest: map<string, string>)

  /** Documents and effect results; nothing here looks inside their values. */
  type Doc = map<string, real>

  /** `_args_hash`: the digest stands for the (op, args) pair it is taken of. */
  type Key = (Op, Args)

  const NON_REPLAYABLE_OPS: set<Op> := {NetFetch, ToolCall}
  const PROMPT_HASH_OPS: set<Op> := {LlmCall}

  datatype Mode = Record | Replay

  datatype CallRec = CallRec(op: Op, args: Args, key: Key, result: Doc)

  datatype HandlerState = HandlerState(mode: Mode, cache: map<Key, Doc>, calls: seq<CallRec>)

  /** What running the thunk does. */
  datatype Thunk = Returns(value: Doc) | Throws(message: string)

  datatype Error = RefusedInReplay | PromptHashMismatch | ReplayCacheMiss | ThunkRaised(message: string)

  datatype Served = Value(result: Doc) | Error(error: Error)

  datatype Decision = Hit(result: Doc) | Execute | Fail(error: Error)

  function WithoutHash(args: Args): Args {
    args.(promptHash := None)
  }

  /** A recorded call of the same op whose arguments differ at most in the prompt hash. */
  predicate Drifted(calls: seq<CallRec>, op: Op, args: Args) {
    exists i :: 0 <= i < |calls| && calls[i].op == op && WithoutHash(calls[i].args) == WithoutHash(args)
  }

  /** What the handler does before it would run the thunk. */
  function Decide(s: HandlerState, op: Op, args: Args): Decision {
    var key := (op, args);
    if key in s.cache then Hit(s.cache[key])
    else if s.mode.Record? then Execute
    else if op in NON_REPLAYABLE_OPS then Fail(RefusedInReplay)
    else if op in PROMPT_HASH_OPS && Drifted(s.calls, op, args) then Fail(PromptHashMismatch)
    else if s.cache == map[] then Fail(ReplayCacheMiss)
    else Execute
  }

  function Remembered(s: HandlerState, op: Op, args: Args, value: Doc): HandlerState {
    s.(cache := s.cache[(op, args) := value], calls := s.calls + [CallRec(op, args, (op, args), value)])
  }

  /** `_serve_or_miss`. */
  function Serve(s: HandlerState, op: Op, args: Args, thunk: Thunk): (Served, HandlerState) {
    match Decide(s, op, args)
    case Hit(r) => (Value(r), s)
    case Fail(e) => (Served.Error(e), s)
    case Execute =>
      match thunk
      case Throws(m) => (Served.Error(ThunkRaised(m)), s)
      case Returns(v) => (Value(v), Remembered(s, op, args, v))
  }

  class EffectHandler {
    var mode: Mode
    var cache: map<Key, Doc>
    var calls: seq<CallRec>

    constructor (mode: Mode, cache: map<Key, Doc>, calls: seq<CallRec>)
      ensures State() == HandlerState(mode, cache, calls)
    {
      this.mode, this.cache, this.calls := mode, cache, calls;
    }

    ghost function State(): HandlerState
      reads this
    {
      HandlerState(mode, cache, calls)
    }

    method Call(op: Op, args: Args, fn: () -> Thunk) returns (r: Served)
      modifies this
      ensures (r, State()) == Serve(old(State()), op, args, fn())
    {
      var key := (op, args);
      if mode.Replay? {
        if key in cache {
          return Value(cache[key]);
        }
        if op in NON_REPLAYABLE_OPS {
          return Served.Error(RefusedInReplay);
        }
        if op in PROMPT_HASH_OPS {
          var other := WithoutHash(args);
          for i := 0 to |calls|
            invariant !Drifted(calls[..i], op, args)
            invariant State() == old(State())
          {
            if calls[i].op != op {
              continue;
            }
            if WithoutHash(calls[i].args) == other {
              return Served.Error(PromptHashMismatch);
            }
          }
          assert calls[..|calls|] == calls;
        }
        if cache == map[] {
          return Served.Error(ReplayCacheMiss);
        }
        match fn() {
          case Throws(m) => return Served.Error(ThunkRaised(m));
          case Returns(v) =>
            cache := cache[key := v];
            calls := calls + [CallRec(op, args, key, v)];
            return Value(v);
        }
      }
      if key in cache {
        return Value(cache[key]);
      }
      match fn() {
        case Throws(m) => r := Served.Error(ThunkRaised(m));
        case Returns(v) =>
          cache := cache[key := v];
          calls := calls + [CallRec(op, args, key, v)];
          r := Value(v);
      }
    }
  }

  // ---- Runs of a handler -----------------------------------------------------------

  /** The world a run meets: what each thunk does, if it is run. */
  type World = nat -> Thunk

  /** The handler after the first `n` requests; the thunk of request `i` is `world(i)`, so one that
      raises may return when the request is made again. */
  function StateAfter(s: HandlerState, reqs: seq<Key>, n: nat, world: World): HandlerState
    requires n <= |reqs|
  {
    if n == 0 then s
    else
      var s' := StateAfter(s, reqs, n - 1, world);
      Serve(s', reqs[n - 1].0, reqs[n - 1].1, world(n - 1)).1
  }

  /** The reply to request `i`. */
  function ReplyAt(s: HandlerState, reqs: seq<Key>, i: nat, world: World): Served
    requires i < |reqs|
  {
    var s' := StateAfter(s, reqs, i, world);
    Serve(s', reqs[i].0, reqs[i].1, world(i)).0
  }

  /** `b` holds everything `a` holds, under the same results. */
  ghost predicate CacheWithin(a: map<Key, Doc>, b: map<Key, Doc>) {
    forall k :: k in a ==> k in b && b[k] == a[k]
  }

  lemma {:induction false} ServeGrows(s: HandlerState, op: Op, args: Args, thunk: Thunk)
    ensures var (r, s') := Serve(s, op, args, thunk);
            && CacheWithin(s.cache, s'.cache) && s.calls <= s'.calls && s'.mode == s.mode
            && (r.Value? ==> (op, args) in s'.cache && s'.cache[(op, args)] == r.result)
  {
    hide Drifted;
  }

  /** Cache entries are never overwritten and the call log only grows, in either mode. */
  lemma {:induction false} RunGrows(s: HandlerState, reqs: seq<Key>, m: nat, n: nat, world: World)
    requires m <= n <= |reqs|
    ensures CacheWithin(StateAfter(s, reqs, m, world).cache, StateAfter(s, reqs, n, world).cache)
    ensures StateAfter(s, reqs, m, world).calls <= StateAfter(s, reqs, n, world).calls
    ensures StateAfter(s, reqs, n, world).mode == s.mode
    decreases n
  {
    hide Serve;
    if n > 0 {
      RunGrows(s, reqs, if m < n then m else 0, n - 1, world);
      var before := StateAfter(s, reqs, n - 1, world);
      ServeGrows(before, reqs[n - 1].0, reqs[n - 1].1, world(n - 1));
    }
  }

  /** Functional consistency: once a request has been answered, every later equal request gets
      the same answer. */
  lemma {:induction false} RunIsConsistent(s: HandlerState, reqs: seq<Key>, i: nat, j: nat, world: World)
    requires i < j < |reqs| && reqs[i] == reqs[j] && ReplyAt(s, reqs, i, world).Value?
    ensures ReplyAt(s, reqs, j, world) == ReplyAt(s, reqs, i, world)
  {
    RunGrows(s, reqs, i + 1, j, world);
    assert StateAfter(s, reqs, i + 1, world).cache[reqs[i]] == ReplyAt(s, reqs, i, world).result;
  }

  /** Call `i` of the log was not cached in `s`, is cached with its result now, and in replay mode
      is no external side effect. */
  ghost predicate LoggedNew(s: HandlerState, s': HandlerState, i: nat)
    requires i < |s'.calls|
  {
    var c := s'.calls[i];
    && c.key == (c.op, c.args) && c.key !in s.cache && c.key in s'.cache && s'.cache[c.key] == c.result
    && (s.mode.Replay? ==> c.op !in NON_REPLAYABLE_OPS)
  }

  /** From `s` to `s'` the log and the cache grew by the same keys, each logged once. */
  ghost predicate LogsExactly(s: HandlerState, s': HandlerState) {
    && s.calls <= s'.calls
    && (forall i, j :: |s.calls| <= i < j < |s'.calls| ==> s'.calls[i].key != s'.calls[j].key)
    && (forall i :: |s.calls| <= i < |s'.calls| ==> LoggedNew(s, s', i))
    && (forall k :: k in s'.cache && k !in s.cache ==> exists i :: |s.calls| <= i < |s'.calls| && s'.calls[i].key == k)
    && CacheWithin(s.cache, s'.cache)
  }

  /** What a run adds: each newly executed key is logged exactly once, with the result cached for
      it; nothing else enters the cache; and in replay mode no external side effect is among them. */
  lemma {:induction false} RunLogsOnce(s: HandlerState, reqs: seq<Key>, n: nat, world: World)
    requires n <= |reqs|
    ensures LogsExactly(s, StateAfter(s, reqs, n, world))
  {
    hide Drifted;
    if n > 0 {
      RunLogsOnce(s, reqs, n - 1, world);
      RunGrows(s, reqs, 0, n - 1, world);
      var before, after := StateAfter(s, reqs, n - 1, world), StateAfter(s, reqs, n, world);
      if after != before {
        LogsOneMore(s, before, after, after.calls[|before.calls|]);
      }
    }
  }

  lemma {:induction false} LogsOneMore(s: HandlerState, before: HandlerState, after: HandlerState, rec: CallRec)
    requires LogsExactly(s, before) && rec.key == (rec.op, rec.args) && rec.key !in before.cache
    requires after == Remembered(before, rec.op, rec.args, rec.result)
    requires s.mode.Replay? ==> rec.op !in NON_REPLAYABLE_OPS
    ensures LogsExactly(s, after)
  {
    var n := |before.calls|;
    forall i | |s.calls| <= i < |after.calls| ensures LoggedNew(s, after, i) {
      if i < n {
        assert LoggedNew(s, before, i) && after.calls[i] == before.calls[i];
      }
    }
    forall i | |s.calls| <= i < n ensures after.calls[i].key != after.calls[n].key {
      assert LoggedNew(s, before, i) && after.calls[i] == before.calls[i];
    }
    forall k | k in after.cache && k !in s.cache
      ensures exists i :: |s.calls| <= i < |after.calls| && after.calls[i].key == k
    {
      if k == rec.key {
        assert after.calls[n].key == k;
      } else {
        var i :| |s.calls| <= i < n && before.calls[i].key == k;
        assert after.calls[i].key == k;
      }
    }
  }

  /** Every request in replay mode that the cache does not hold: external side effects are refused; an llm call is
      refused when the log holds one with the same arguments but for the prompt hash; with nothing cached
      at all every other one is a miss; else its thunk is run, and a value remembered and logged. */
  lemma {:induction false} MissesInReplay(s: HandlerState, op: Op, args: Args, thunk: Thunk)
    requires s.mode == Mode.Replay && (op, args) !in s.cache
    ensures var (r, s') := Serve(s, op, args, thunk);
            var drifted := op == LlmCall && exists i :: 0 <= i < |s.calls| && s.calls[i].op == LlmCall
                                                        && s.calls[i].args.rest == args.rest;
            && (r == Served.Error(RefusedInReplay) <==> op == NetFetch || op == ToolCall)
            && (r == Served.Error(PromptHashMismatch) <==> drifted)
            && (r == Served.Error(ReplayCacheMiss) <==>
                op != NetFetch && op != ToolCall && !drifted && |s.cache| == 0)
            && (op != NetFetch && op != ToolCall && !drifted && |s.cache| != 0 ==> RanThunk(s, op, args, thunk, r, s'))
            && (r.Error? ==> s' == s)
  {
    if i :| 0 <= i < |s.calls| && s.calls[i].op == op && s.calls[i].args.rest == args.rest {
      assert WithoutHash(s.calls[i].args) == WithoutHash(args);
    }
  }

  /** The thunk was run: what it returned is the reply, cached under the request and logged; what it raised is
      passed on and changes nothing. */
  predicate RanThunk(s: HandlerState, op: Op, args: Args, thunk: Thunk, r: Served, s': HandlerState) {
    match thunk
    case Throws(m) => r == Served.Error(ThunkRaised(m)) && s' == s
    case Returns(v) =>
      && r == Value(v) && s'.mode == s.mode && s'.cache == s.cache[(op, args) := v]
      && |s'.calls| == |s.calls| + 1 && s.calls <= s'.calls
      && s'.calls[|s.calls|] == CallRec(op, args, (op, args), v)
  }

  /** In record mode every request that the cache does not hold runs its thunk, and a cached one gets the cached
      result in either mode. */
  lemma {:induction false} MissesInRecord(s: HandlerState, op: Op, args: Args, thunk: Thunk)
    ensures s.mode == Mode.Record && (op, args) !in s.cache ==>
              RanThunk(s, op, args, thunk, Serve(s, op, args, thunk).0, Serve(s, op, args, thunk).1)
    ensures (op, args) in s.cache ==> Serve(s, op, args, thunk) == (Value(s.cache[(op, args)]), s)
  {
    hide Drifted;
  }

  /** In replay mode an uncached external side effect is refused without running its thunk:
      the reply does not depend on the thunk and the handler is unchanged. */
  lemma {:induction false} ReplayNeverReexecutes(s: HandlerState, op: Op, args: Args, t1: Thunk, t2: Thunk)
    requires s.mode.Replay? && op in NON_REPLAYABLE_OPS
    ensures Serve(s, op, args, t1) == Serve(s, op, args, t2)
    ensures Serve(s, op, args, t1).1 == s
    ensures Serve(s, op, args, t1).0.Value? <==> (op, args) in s.cache
  {}

  lemma {:induction false} ServeHit(s: HandlerState, op: Op, args: Args, thunk: Thunk)
    requires (op, args) in s.cache
    ensures Serve(s, op, args, thunk) == (Value(s.cache[(op, args)]), s)
  {
    hide Drifted;
  }

  /** A recorded sequence replays identically in any world, and replaying changes nothing. */
  lemma {:induction false} RecordingReplays(rec: HandlerState, reqs: seq<Key>, n: nat, world: World,
                                             rep: HandlerState, world': World)
    requires n <= |reqs| && rep.mode.Replay?
    requires forall i :: 0 <= i < |reqs| ==> ReplyAt(rec, reqs, i, world).Value?
    requires CacheWithin(StateAfter(rec, reqs, |reqs|, world).cache, rep.cache)
    ensures StateAfter(rep, reqs, n, world') == rep
    ensures forall i :: 0 <= i < n ==> ReplyAt(rep, reqs, i, world') == ReplyAt(rec, reqs, i, world)
  {
    hide Serve;
    if n > 0 {
      RecordingReplays(rec, reqs, n - 1, world, rep, world');
      var i := n - 1;
      var before := StateAfter(rec, reqs, i, world);
      ServeGrows(before, reqs[i].0, reqs[i].1, world(i));
      RunGrows(rec, reqs, i + 1, |reqs|, world);
      assert ReplyAt(rec, reqs, i, world).Value?;
      ServeHit(rep, reqs[i].0, reqs[i].1, world'(i));
    }
  }
}
