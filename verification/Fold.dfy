/** `DB.fold`: the checkpointing left fold (src/persistence/fact/db.py:585-847). */
module Fold {
  import opened Datoms
  import opened Views
  import opened Transact
  import opened Runs
  import opened Intervals

  /** What the caller's `fn(acc, item, db)` does; it reads the log and does not write it. */
  datatype Reduced<A> = Raised | NotAList(acc: A) | Returned(acc: A, facts: seq<Fact>)

  datatype OnError = Abort | Skip | Checkpoint

  datatype Config<!A, !I> = Config(
    fn: (A, I, seq<Datom>) -> Reduced<A>, onError: OnError, every: nat, base: string, clock: nat -> int)

  /** The locals of the loop; `flushes` counts the transacts, each of which reads the clock once. */
  datatype Locals<A> = Locals(
    acc: A, checkpoint: A, log: seq<Datom>, pending: seq<Fact>, since: nat, committed: nat, flushes: nat)

  datatype Result<A> =
    | Finished(acc: A, committed: nat)
    | FoldError(acc: A, committed: nat, index: nat)
    | Correction   // RetroactiveCorrectionError out of a flush

  /** The loop goes on, or the call ends with a result over the log as it stands. */
  datatype Progress<A> = Go(st: Locals<A>) | Stop(result: Result<A>, log: seq<Datom>)

  function CtxOf<A, I>(c: Config<A, I>, flush: nat): Ctx {
    Ctx(c.base, false, c.clock(flush))
  }

  /** `_flush`: nothing moves when there is nothing to commit. */
  function Flushed<A, I>(c: Config<A, I>, st: Locals<A>): Progress<A> {
    if st.pending == [] then Go(st.(since := 0))
    else
      match BuildAll(Index, st.log, st.pending, CtxOf(c, st.flushes))
      case Refused(_) => Stop(Correction, st.log)
      case Built(d) =>
        var log := Commit(st.log, d);
        var grown := if |log| > |st.log| then |log| - |st.log| else 0;
        Go(Locals(st.acc, st.acc, log, [], 0, st.committed + grown, st.flushes + 1))
  }

  function ItemStep<A, I>(c: Config<A, I>, st: Locals<A>, item: I, index: nat): Progress<A> {
    match c.fn(st.acc, item, st.log)
    case Raised =>
      if c.onError.Skip? then Go(st) else Stop(FoldError(st.checkpoint, st.committed, index), st.log)
    case NotAList(_) => Stop(FoldError(st.checkpoint, st.committed, index), st.log)
    case Returned(acc, facts) =>
      var st1 := st.(acc := acc, pending := st.pending + facts, since := st.since + 1);
      if c.every == 0 || st1.since >= c.every then Flushed(c, st1) else Go(st1)
  }

  /** The loop after the first `n` items. */
  function After<A, I>(c: Config<A, I>, st0: Locals<A>, items: seq<I>, n: nat): Progress<A>
    requires n <= |items|
  {
    if n == 0 then Go(st0)
    else
      match After(c, st0, items, n - 1)
      case Stop(r, l) => Stop(r, l)
      case Go(st) => ItemStep(c, st, items[n - 1], n - 1)
  }

  function Start<A>(seed: A, log: seq<Datom>): Locals<A> {
    Locals(seed, seed, log, [], 0, 0, 0)
  }

  /** The whole call: its result and the log it leaves. */
  function FoldOf<A, I>(c: Config<A, I>, seed: A, log: seq<Datom>, items: seq<I>): (Result<A>, seq<Datom>) {
    match After(c, Start(seed, log), items, |items|)
    case Stop(r, l) => (r, l)
    case Go(st) =>
      match if st.pending != [] then Flushed(c, st) else Go(st)
      case Stop(r, l) => (r, l)
      case Go(st') => (Finished(st'.acc, st'.committed), st'.log)
  }

  method FlushPending<A, I>(db: DB, c: Config<A, I>, st: Locals<A>) returns (p: Progress<A>)
    requires st.log == db.store.log
    modifies db.store
    ensures p == Flushed(c, st)
    ensures db.store.log == if p.Go? then p.st.log else p.log
  {
    if st.pending == [] {
      return Go(st.(since := 0));
    }
    var before := |db.store.log|;
    var r := db.TransactBatch(st.pending, c.base, false, c.clock(st.flushes));
    if r.RetroactiveCorrection? {
      return Stop(Correction, db.store.log);
    }
    var grown := if |db.store.log| > before then |db.store.log| - before else 0;
    p := Go(Locals(st.acc, st.acc, db.store.log, [], 0, st.committed + grown, st.flushes + 1));
  }

  /** `fold`. */
  method FoldDB<A, I>(db: DB, c: Config<A, I>, seed: A, items: seq<I>) returns (r: Result<A>)
    modifies db.store
    ensures (r, db.store.log) == FoldOf(c, seed, old(db.store.log), items)
  {
    hide Flushed;
    var st := Start(seed, db.store.log);
    for i := 0 to |items|
      invariant st.log == db.store.log
      invariant After(c, Start(seed, old(db.store.log)), items, i) == Go(st)
    {
      match c.fn(st.acc, items[i], db.store.log) {
        case Raised =>
          if c.onError.Skip? {
            continue;
          }
          StopPersists(c, Start(seed, old(db.store.log)), items, i + 1, |items|);
          return FoldError(st.checkpoint, st.committed, i);
        case NotAList(_) =>
          StopPersists(c, Start(seed, old(db.store.log)), items, i + 1, |items|);
          return FoldError(st.checkpoint, st.committed, i);
        case Returned(acc, facts) =>
          st := st.(acc := acc, pending := st.pending + facts, since := st.since + 1);
          if c.every == 0 || st.since >= c.every {
            var p := FlushPending(db, c, st);
            if p.Stop? {
              StopPersists(c, Start(seed, old(db.store.log)), items, i + 1, |items|);
              return p.result;
            }
            st := p.st;
          }
      }
    }
    if st.pending != [] {
      var p := FlushPending(db, c, st);
      if p.Stop? {
        return p.result;
      }
      st := p.st;
    }
    r := Finished(st.acc, st.committed);
  }

  lemma {:induction false} StopPersists<A, I>(c: Config<A, I>, st0: Locals<A>, items: seq<I>, m: nat, n: nat)
    requires m <= n <= |items| && After(c, st0, items, m).Stop?
    ensures After(c, st0, items, n) == After(c, st0, items, m)
    decreases n
  {
    if m < n {
      StopPersists(c, st0, items, m, n - 1);
    }
  }

  // ---- Checkpoints -------------------------------------------------------------------

  /** What a run has done so far: the accumulator and facts of every successful item in order,
      how many of those items the last non-empty flush covers, and the batches flushed. */
  datatype History<A> = History(accs: seq<A>, facts: seq<seq<Fact>>, covered: nat, batches: seq<seq<Fact>>)

  function HistoryOf<A, I>(c: Config<A, I>, st0: Locals<A>, items: seq<I>, n: nat): History<A>
    requires n <= |items|
  {
    if n == 0 then History([], [], 0, [])
    else
      var h := HistoryOf(c, st0, items, n - 1);
      match After(c, st0, items, n - 1)
      case Stop(_, _) => h
      case Go(st) =>
        match c.fn(st.acc, items[n - 1], st.log)
        case Raised => h
        case NotAList(_) => h
        case Returned(acc, facts) =>
          var h1 := h.(accs := h.accs + [acc], facts := h.facts + [facts]);
          var pending := st.pending + facts;
          if (c.every == 0 || st.since + 1 >= c.every) && pending != [] && ItemStep(c, st, items[n - 1], n - 1).Go?
          then h1.(covered := |h1.accs|, batches := h1.batches + [pending])
          else h1
  }

  function Concat(ss: seq<seq<Fact>>): seq<Fact> {
    if ss == [] then [] else Concat(ss[..|ss| - 1]) + ss[|ss| - 1]
  }

  /** The `transact_batch` calls behind the flushed batches. */
  function BatchCalls<A, I>(c: Config<A, I>, batches: seq<seq<Fact>>): (r: seq<Call>)
    ensures |r| == |batches|
  {
    seq(|batches|, i requires 0 <= i < |batches| => Call(Index, batches[i], CtxOf(c, i)))
  }

  function LastOr<A>(s: seq<A>, n: nat, default: A): A
    requires n <= |s|
  {
    if n == 0 then default else s[n - 1]
  }

  /** The checkpoint invariant over a history `h`. */
  ghost predicate Exact<A, I>(c: Config<A, I>, seed: A, log0: seq<Datom>, h: History<A>, st: Locals<A>) {
    && |h.accs| == |h.facts| && h.covered <= |h.accs| && st.flushes == |h.batches|
    && Concat(h.batches) == Concat(h.facts[..h.covered])
    && st.pending == Concat(h.facts[h.covered..])
    && st.log == RunCalls(log0, BatchCalls(c, h.batches))
    && st.checkpoint == LastOr(h.accs, h.covered, seed)
    && st.acc == LastOr(h.accs, |h.accs|, seed)
    && st.committed == |st.log| - |log0|
  }

  lemma {:induction false} ConcatSnoc(ss: seq<seq<Fact>>, s: seq<Fact>)
    ensures Concat(ss + [s]) == Concat(ss) + s
  {
    assert (ss + [s])[..|ss|] == ss;
  }

  lemma {:induction false} RunSnoc(log: seq<Datom>, calls: seq<Call>, c: Call)
    ensures RunCalls(log, calls + [c]) == LogAfterCall(RunCalls(log, calls), c)
  {
    assert (calls + [c])[..|calls|] == calls;
  }

  lemma {:induction false} ConcatSplit(ss: seq<seq<Fact>>, k: nat)
    requires k <= |ss|
    ensures Concat(ss) == Concat(ss[..k]) + Concat(ss[k..])
    decreases |ss|
  {
    if k == |ss| {
      assert ss[..k] == ss && ss[k..] == [];
    } else {
      var init := ss[..|ss| - 1];
      ConcatSplit(init, k);
      assert init[..k] == ss[..k] && ss[k..][..|ss| - 1 - k] == init[k..];
    }
  }

  /** A flush commits exactly the pending facts and moves the checkpoint to the live accumulator. */
  lemma {:induction false} FlushIsExact<A, I>(c: Config<A, I>, seed: A, log0: seq<Datom>, h: History<A>, st: Locals<A>)
    requires Exact(c, seed, log0, h, st) && st.pending != [] && Flushed(c, st).Go?
    ensures Exact(c, seed, log0, h.(covered := |h.accs|, batches := h.batches + [st.pending]), Flushed(c, st).st)
  {
    hide BuildUpTo, RunCalls, MarkAll, MaxTx;
    var h1 := h.(covered := |h.accs|, batches := h.batches + [st.pending]);
    var call := Call(Index, st.pending, CtxOf(c, st.flushes));
    ConcatSnoc(h.batches, st.pending);
    ConcatSplit(h.facts, h.covered);
    assert h.facts[..|h.accs|] == h.facts && h.facts[|h.accs|..] == [];
    assert BatchCalls(c, h1.batches) == BatchCalls(c, h.batches) + [call];
    RunSnoc(log0, BatchCalls(c, h.batches), call);
    CallAppends(st.log, call);
  }

  lemma {:induction false} ReturnIsExact<A, I>(c: Config<A, I>, seed: A, log0: seq<Datom>, h: History<A>,
                                               st: Locals<A>, acc: A, facts: seq<Fact>)
    requires Exact(c, seed, log0, h, st)
    ensures Exact(c, seed, log0, h.(accs := h.accs + [acc], facts := h.facts + [facts]),
                  st.(acc := acc, pending := st.pending + facts, since := st.since + 1))
  {
    hide RunCalls, BatchCalls;
    var fs := h.facts + [facts];
    assert fs[..h.covered] == h.facts[..h.covered];
    assert fs[h.covered..] == h.facts[h.covered..] + [facts];
    ConcatSnoc(h.facts[h.covered..], facts);
  }

  lemma {:induction false} RunIsExact<A, I>(c: Config<A, I>, seed: A, log0: seq<Datom>, items: seq<I>, n: nat)
    requires n <= |items| && After(c, Start(seed, log0), items, n).Go?
    ensures Exact(c, seed, log0, HistoryOf(c, Start(seed, log0), items, n), After(c, Start(seed, log0), items, n).st)
  {
    var st0 := Start(seed, log0);
    if n == 0 {
      assert BatchCalls(c, []) == [];
    } else {
      RunIsExact(c, seed, log0, items, n - 1);
      var h := HistoryOf(c, st0, items, n - 1);
      var st := After(c, st0, items, n - 1).st;
      match c.fn(st.acc, items[n - 1], st.log)
      case Raised =>
      case NotAList(_) =>
      case Returned(acc, facts) =>
        ReturnIsExact(c, seed, log0, h, st, acc, facts);
        var h1 := h.(accs := h.accs + [acc], facts := h.facts + [facts]);
        var st1 := st.(acc := acc, pending := st.pending + facts, since := st.since + 1);
        if (c.every == 0 || st1.since >= c.every) && st1.pending != [] {
          FlushIsExact(c, seed, log0, h1, st1);
        }
    }
  }

  /** How many successes the last attempt to flush does not cover: none when every success flushes, else what
      is left over of a whole number of checkpoints. */
  function Leftover(every: nat, successes: nat): nat {
    if every == 0 then 0 else successes % every
  }

  /** A checkpoint falls after every `every`-th success: what is not committed yet are the facts of the successes
      left over since. */
  lemma {:induction false} CheckpointsFall<A, I>(c: Config<A, I>, seed: A, log0: seq<Datom>, items: seq<I>, n: nat)
    requires n <= |items| && After(c, Start(seed, log0), items, n).Go?
    ensures var h := HistoryOf(c, Start(seed, log0), items, n);
            var st := After(c, Start(seed, log0), items, n).st;
            var k := Leftover(c.every, |h.accs|);
            && st.since == k && |h.accs| == |h.facts| && k <= |h.facts|
            && st.pending == Concat(h.facts[|h.facts| - k..])
  {
    hide Flushed, RunCalls, Leftover, Concat;
    var st0 := Start(seed, log0);
    LeftoverSteps(c.every, 0);
    if n == 0 {
      NothingToConcat();
    } else {
      CheckpointsFall(c, seed, log0, items, n - 1);
      var h := HistoryOf(c, st0, items, n - 1);
      var st := After(c, st0, items, n - 1).st;
      LeftoverSteps(c.every, |h.accs|);
      match c.fn(st.acc, items[n - 1], st.log)
      case Raised =>
      case NotAList(_) =>
      case Returned(acc, facts) =>
        var fs := h.facts + [facts];
        assert fs[|fs| - 1 - st.since..] == h.facts[|h.facts| - st.since..] + [facts];
        ConcatSnoc(h.facts[|h.facts| - st.since..], facts);
        assert fs[|fs|..] == [];
        NothingToConcat();
        FlushClears(c, st.(acc := acc, pending := st.pending + facts, since := st.since + 1));
    }
  }

  lemma {:induction false} NothingToConcat()
    ensures Concat([]) == []
  {}

  lemma {:induction false} FlushClears<A, I>(c: Config<A, I>, st: Locals<A>)
    ensures Flushed(c, st).Go? ==> Flushed(c, st).st.pending == [] && Flushed(c, st).st.since == 0
  {
    hide BuildUpTo, Commit;
  }

  lemma {:induction false} LeftoverSteps(every: nat, m: nat)
    ensures Leftover(every, 0) == 0
    ensures Leftover(every, m + 1) ==
            if every == 0 || Leftover(every, m) + 1 >= every then 0 else Leftover(every, m) + 1
    ensures Leftover(every, m) <= m
  {
    if every > 0 {
      var q, r := m / every, m % every;
      assert m + 1 == q * every + (r + 1);
      if r + 1 == every {
        assert m + 1 == (q + 1) * every;
        Remainder(m + 1, q + 1, 0, every);
      } else {
        Remainder(m + 1, q, r + 1, every);
      }
      Remainder(m, q, r, every);
    }
  }

  lemma {:induction false} Remainder(m: nat, q: nat, r: nat, d: nat)
    requires r < d && m == q * d + r
    ensures m % d == r
  {
    var q', r' := m / d, m % d;
    assert m == q' * d + r';
    if q < q' {
      ScaleUp(q + 1, q', d);
    }
    if q' < q {
      ScaleUp(q' + 1, q, d);
    }
  }

  lemma {:induction false} ScaleUp(a: nat, b: nat, d: nat)
    requires a <= b
    ensures a * d <= b * d
  {}

  /** A fold never forces a correction. When nothing is pending and every success flushes, an item that emits one
      assert backdated before the prior of its key ends the call in that error, whatever follows it, and leaves
      in the log what was committed before the item. */
  lemma {:induction false} BackdatedItemEndsTheFold<A, I>(c: Config<A, I>, seed: A, log0: seq<Datom>, items: seq<I>,
                                                          n: nat, f: Fact)
    requires n < |items| && c.every <= 1 && After(c, Start(seed, log0), items, n).Go?
    requires var st := After(c, Start(seed, log0), items, n).st;
             && c.fn(st.acc, items[n], st.log).Returned? && c.fn(st.acc, items[n], st.log).facts == [f]
             && f.op == Assert && f.validFrom.Some? && FindPrior(st.log, f.e, f.a).Some?
             && f.validFrom.value < FindPrior(st.log, f.e, f.a).value.validFrom
    ensures FoldOf(c, seed, log0, items) == (Correction, After(c, Start(seed, log0), items, n).st.log)
  {
    hide BuildUpTo, FindPrior, Commit, RunCalls;
    var st0 := Start(seed, log0);
    var st := After(c, st0, items, n).st;
    CheckpointsFall(c, seed, log0, items, n);
    LeftoverSteps(c.every, |HistoryOf(c, st0, items, n).accs|);
    OneFactRefusedIff(Index, st.log, f, CtxOf(c, st.flushes));
    var facts := HistoryOf(c, st0, items, n).facts;
    assert facts[|facts|..] == [];
    NothingToConcat();
    assert st.pending + [f] == [f];
    assert After(c, st0, items, n + 1) == Stop(Correction, st.log);
    StopPersists(c, st0, items, n + 1, |items|);
  }

  /** When a fold ends in FoldError at item `i`: the committed facts are those of the successful
      items before `i` up to the last non-empty flush, batch by batch; the error carries the
      accumulator after the last of them and the number of datoms the log has grown by. */
  lemma {:induction false} FoldErrorIsExact<A, I>(c: Config<A, I>, seed: A, log0: seq<Datom>, items: seq<I>)
    requires FoldOf(c, seed, log0, items).0.FoldError?
    ensures var (r, log) := FoldOf(c, seed, log0, items);
            && r.index < |items|
            && var h := HistoryOf(c, Start(seed, log0), items, r.index);
               && |h.accs| == |h.facts| && h.covered <= |h.accs|
               && Concat(h.batches) == Concat(h.facts[..h.covered])
               && log == RunCalls(log0, BatchCalls(c, h.batches))
               && r.acc == LastOr(h.accs, h.covered, seed)
               && r.committed == |log| - |log0|
  {
    hide RunCalls, BuildUpTo, HistoryOf, BatchCalls, Concat, LastOr;
    var st0 := Start(seed, log0);
    var (r, log) := FoldOf(c, seed, log0, items);
    FirstStop(c, st0, items, |items|);
    var i :| 0 <= i < |items| && After(c, st0, items, i).Go? && After(c, st0, items, i + 1).Stop?;
    StopPersists(c, st0, items, i + 1, |items|);
    RunIsExact(c, seed, log0, items, i);
  }

  /** When a fold ends in RetroactiveCorrectionError: the log is what the batches flushed before made of it, and the
      facts waiting then, those of the item at hand included, would be refused by an unforced `transact_batch` on
      that log at the next reading of the clock. */
  lemma {:induction false} FoldCorrectionIsExact<A, I>(c: Config<A, I>, seed: A, log0: seq<Datom>, items: seq<I>)
    returns (i: nat, waiting: seq<Fact>)
    requires FoldOf(c, seed, log0, items).0.Correction?
    ensures i <= |items| && After(c, Start(seed, log0), items, i).Go?
    ensures var st, h := After(c, Start(seed, log0), items, i).st, HistoryOf(c, Start(seed, log0), items, i);
            var log := FoldOf(c, seed, log0, items).1;
            && log == RunCalls(log0, BatchCalls(c, h.batches))
            && |h.accs| == |h.facts| && h.covered <= |h.facts| && Concat(h.batches) == Concat(h.facts[..h.covered])
            && (i < |items| ==> c.fn(st.acc, items[i], log).Returned?)
            && waiting == Concat(h.facts[h.covered..])
                          + (if i < |items| then c.fn(st.acc, items[i], log).facts else [])
            && BuildAll(Index, log, waiting, Ctx(c.base, false, c.clock(|h.batches|))).Refused?
  {
    hide RunCalls, BuildUpTo, HistoryOf, BatchCalls, Concat, LastOr, Commit;
    var st0 := Start(seed, log0);
    if After(c, st0, items, |items|).Stop? {
      FirstStop(c, st0, items, |items|);
      i :| 0 <= i < |items| && After(c, st0, items, i).Go? && After(c, st0, items, i + 1).Stop?;
      StopPersists(c, st0, items, i + 1, |items|);
      RunIsExact(c, seed, log0, items, i);
      var st := After(c, st0, items, i).st;
      waiting := st.pending + c.fn(st.acc, items[i], st.log).facts;
    } else {
      i := |items|;
      RunIsExact(c, seed, log0, items, i);
      waiting := After(c, st0, items, i).st.pending;
      assert waiting + [] == waiting;
    }
  }

  lemma {:induction false} FirstStop<A, I>(c: Config<A, I>, st0: Locals<A>, items: seq<I>, n: nat)
    requires n <= |items| && After(c, st0, items, n).Stop?
    ensures exists i :: 0 <= i < n && After(c, st0, items, i).Go? && After(c, st0, items, i + 1).Stop?
  {
    if After(c, st0, items, n - 1).Stop? {
      FirstStop(c, st0, items, n - 1);
    } else {
      assert After(c, st0, items, n - 1).Go?;
    }
  }

  lemma {:induction false} StopsInError<A, I>(c: Config<A, I>, st0: Locals<A>, items: seq<I>, n: nat)
    requires n <= |items| && After(c, st0, items, n).Stop?
    ensures !After(c, st0, items, n).result.Finished?
  {
    if After(c, st0, items, n - 1).Stop? {
      StopsInError(c, st0, items, n - 1);
    }
  }

  /** When a fold returns: every successful item's facts are committed, in order, in the
      flushed batches (the tail included), and the count is the growth of the log. */
  lemma {:induction false} FoldDoneIsExact<A, I>(c: Config<A, I>, seed: A, log0: seq<Datom>, items: seq<I>)
    requires FoldOf(c, seed, log0, items).0.Finished?
    ensures var (r, log) := FoldOf(c, seed, log0, items);
            var h := HistoryOf(c, Start(seed, log0), items, |items|);
            && |h.accs| == |h.facts|
            && r.acc == LastOr(h.accs, |h.accs|, seed)
            && r.committed == |log| - |log0|
            && exists batches :: Concat(batches) == Concat(h.facts) && log == RunCalls(log0, BatchCalls(c, batches))
  {
    var st0 := Start(seed, log0);
    var h := HistoryOf(c, st0, items, |items|);
    if After(c, st0, items, |items|).Stop? {
      StopsInError(c, st0, items, |items|);
    }
    var st := After(c, st0, items, |items|).st;
    RunIsExact(c, seed, log0, items, |items|);
    assert h.facts[..|h.facts|] == h.facts;
    ConcatSplit(h.facts, h.covered);
    if st.pending != [] {
      FlushIsExact(c, seed, log0, h, st);
      var batches := h.batches + [st.pending];
      ConcatSnoc(h.batches, st.pending);
      assert Concat(batches) == Concat(h.facts);
    } else {
      assert Concat(h.batches) == Concat(h.facts);
    }
  }

  /** With per-item checkpoints the checkpoint has caught up with the live accumulator if and only
      if the last successful item emitted facts: one that emitted none does not move it, so the
      documented "advances on every successful fn" holds exactly in that case. */
  lemma {:induction false} PerItemCheckpoint<A, I>(c: Config<A, I>, seed: A, log0: seq<Datom>, items: seq<I>, n: nat)
    requires n <= |items| && c.every == 0 && After(c, Start(seed, log0), items, n).Go?
    ensures var h := HistoryOf(c, Start(seed, log0), items, n);
            && After(c, Start(seed, log0), items, n).st.pending == []
            && |h.accs| == |h.facts|
            && (h.covered == |h.accs| <==> h.facts == [] || h.facts[|h.facts| - 1] != [])
  {
    hide RunCalls, BatchCalls, Concat, LastOr;
    RunIsExact(c, seed, log0, items, n);
    if n > 0 {
      PerItemCheckpoint(c, seed, log0, items, n - 1);
      RunIsExact(c, seed, log0, items, n - 1);
    }
  }

  /** An item without facts, then one that raises: the error carries the seed. */
  lemma {:induction false} EmptyItemLosesItsAccumulator(clock: nat -> int)
    ensures var fn := (acc: int, item: int, log: seq<Datom>) =>
                        if item == 0 then Reduced.Returned(acc + 1, []) else Reduced.Raised;
            FoldOf(Config(fn, Abort, 0, "fold", clock), 7, [], [0, 1]).0 == FoldError(7, 0, 1)
  {
    var fn := (acc: int, item: int, log: seq<Datom>) =>
                if item == 0 then Reduced.Returned(acc + 1, []) else Reduced.Raised;
    var c := Config(fn, Abort, 0, "fold", clock);
    var st0 := Start(7, []);
    assert After(c, st0, [0, 1], 0) == Go(st0);
    assert After(c, st0, [0, 1], 1) == Go(st0.(acc := 8));
    assert After(c, st0, [0, 1], 2) == Stop(FoldError(7, 0, 1), []);
  }

  // ---- Skipping ----------------------------------------------------------------------

  /** The items on which `fn` did not raise when the run reached them. */
  function Kept<A, I>(c: Config<A, I>, st0: Locals<A>, items: seq<I>, n: nat): seq<I>
    requires n <= |items|
  {
    if n == 0 then []
    else
      var k := Kept(c, st0, items, n - 1);
      match After(c, st0, items, n - 1)
      case Stop(_, _) => k
      case Go(st) => if c.fn(st.acc, items[n - 1], st.log).Raised? then k else k + [items[n - 1]]
  }

  lemma {:induction false} KeptRun<A, I>(c: Config<A, I>, st0: Locals<A>, items: seq<I>, n: nat, mode: OnError)
    requires n <= |items| && c.onError.Skip? && After(c, st0, items, n).Go?
    ensures var k := Kept(c, st0, items, n);
            After(c.(onError := mode), st0, k, |k|) == After(c, st0, items, n)
  {
    hide Flushed;
    if n > 0 {
      KeptRun(c, st0, items, n - 1, mode);
      var c' := c.(onError := mode);
      var k0, k := Kept(c, st0, items, n - 1), Kept(c, st0, items, n);
      var st := After(c, st0, items, n - 1).st;
      if !c.fn(st.acc, items[n - 1], st.log).Raised? {
        AfterPrefix(c', st0, k, k0);
        assert k[..|k0|] == k0;
        SameItemStep(c, c', st, items[n - 1], n - 1, |k0|);
      }
    }
  }

  lemma {:induction false} SameItemStep<A, I>(c: Config<A, I>, c': Config<A, I>, st: Locals<A>, item: I, i: nat, j: nat)
    requires c' == c.(onError := c'.onError) && !c.fn(st.acc, item, st.log).Raised?
    ensures ItemStep(c, st, item, i).Go? ==> ItemStep(c', st, item, j) == ItemStep(c, st, item, i)
  {}

  lemma {:induction false} AfterPrefix<A, I>(c: Config<A, I>, st0: Locals<A>, items: seq<I>, prefix: seq<I>)
    requires prefix <= items
    ensures After(c, st0, items, |prefix|) == After(c, st0, prefix, |prefix|)
  {
    PrefixUpTo(c, st0, items, prefix, |prefix|);
  }

  lemma {:induction false} PrefixUpTo<A, I>(c: Config<A, I>, st0: Locals<A>, items: seq<I>, prefix: seq<I>, n: nat)
    requires prefix <= items && n <= |prefix|
    ensures After(c, st0, items, n) == After(c, st0, prefix, n)
  {
    if n > 0 {
      PrefixUpTo(c, st0, items, prefix, n - 1);
    }
  }

  /** The result with the index of the offending item counted among the kept items. */
  function Reindexed<A, I>(c: Config<A, I>, st0: Locals<A>, items: seq<I>, r: Result<A>): Result<A>
    requires r.FoldError? ==> r.index <= |items|
  {
    match r
    case FoldError(acc, committed, index) => FoldError(acc, committed, |Kept(c, st0, items, index)|)
    case _ => r
  }

  /** The item that stops a run is kept, and stops the run over the items kept. */
  lemma {:induction false} StoppingItem<A, I>(c: Config<A, I>, st0: Locals<A>, items: seq<I>, n: nat, mode: OnError)
    requires 0 < n <= |items| && c.onError.Skip? && After(c, st0, items, n - 1).Go? && After(c, st0, items, n).Stop?
    ensures var k0, k, stop := Kept(c, st0, items, n - 1), Kept(c, st0, items, n), After(c, st0, items, n);
            && k == k0 + [items[n - 1]]
            && (stop.result.FoldError? ==> stop.result.index == n - 1)
            && ItemStep(c.(onError := mode), After(c, st0, items, n - 1).st, items[n - 1], |k0|)
               == Stop(Reindexed(c, st0, items, stop.result), stop.log)
  {
    hide Flushed;
    var st := After(c, st0, items, n - 1).st;
    var r := c.fn(st.acc, items[n - 1], st.log);
    if r.Returned? {
      FlushesAlike(c, mode, st.(acc := r.acc, pending := st.pending + r.facts, since := st.since + 1));
    }
  }

  lemma {:induction false} KeptStop<A, I>(c: Config<A, I>, st0: Locals<A>, items: seq<I>, n: nat, mode: OnError)
    requires n <= |items| && c.onError.Skip? && After(c, st0, items, n).Stop?
    ensures var k, stop := Kept(c, st0, items, n), After(c, st0, items, n);
            && (stop.result.FoldError? ==> stop.result.index < |items|)
            && After(c.(onError := mode), st0, k, |k|) == Stop(Reindexed(c, st0, items, stop.result), stop.log)
  {
    hide ItemStep, Reindexed;
    if After(c, st0, items, n - 1).Stop? {
      KeptStop(c, st0, items, n - 1, mode);
    } else {
      KeptRun(c, st0, items, n - 1, mode);
      StoppingItem(c, st0, items, n, mode);
      var k0, k := Kept(c, st0, items, n - 1), Kept(c, st0, items, n);
      AfterPrefix(c.(onError := mode), st0, k, k0);
      assert k[..|k0|] == k0;
    }
  }

  /** Under "skip" a fold leaves the log, and ends with the result, of folding the list with the raising
      items removed, under any error mode, even when `fn` reads the db; where it ends in an error, the
      offending item is numbered among the items kept. */
  lemma {:induction false} SkipDropsRaisers<A, I>(c: Config<A, I>, seed: A, log0: seq<Datom>, items: seq<I>,
                                                  mode: OnError)
    requires c.onError.Skip?
    ensures var (r, log) := FoldOf(c, seed, log0, items);
            && (r.FoldError? ==> r.index < |items|)
            && FoldOf(c.(onError := mode), seed, log0, Kept(c, Start(seed, log0), items, |items|))
               == (Reindexed(c, Start(seed, log0), items, r), log)
  {
    hide Kept, After, ItemStep, BuildUpTo;
    if After(c, Start(seed, log0), items, |items|).Stop? {
      KeptStop(c, Start(seed, log0), items, |items|, mode);
    } else {
      KeptRun(c, Start(seed, log0), items, |items|, mode);
      FlushesAlike(c, mode, After(c, Start(seed, log0), items, |items|).st);
    }
  }

  /** A flush does not depend on the error mode, and ends in no FoldError. */
  lemma {:induction false} FlushesAlike<A, I>(c: Config<A, I>, mode: OnError, st: Locals<A>)
    ensures Flushed(c.(onError := mode), st) == Flushed(c, st)
    ensures Flushed(c, st).Stop? ==> Flushed(c, st).result.Correction?
  {}

  // ---- Checkpoint sizes --------------------------------------------------------------

  /** `fn` neither reads the log nor raises, and dates every open assert it emits. */
  ghost predicate Plain<A(!new), I(!new)>(fn: (A, I, seq<Datom>) -> Reduced<A>) {
    forall a, i, l :: fn(a, i, l).Returned? && fn(a, i, l) == fn(a, i, [])
                      && OpenAsserts(fn(a, i, l).facts) && forall f :: f in fn(a, i, l).facts ==> f.validFrom.Some?
  }

  /** The facts a plain reducer emits over the items, and the accumulator it ends with. */
  function Emitted<A, I>(fn: (A, I, seq<Datom>) -> Reduced<A>, seed: A, items: seq<I>): (A, seq<Fact>) {
    if items == [] then (seed, [])
    else
      var (acc, facts) := Emitted(fn, seed, items[..|items| - 1]);
      match fn(acc, items[|items| - 1], [])
      case Returned(acc', facts') => (acc', facts + facts')
      case _ => (acc, facts)
  }

  /** The entries of dated facts do not depend on the clock. */
  function DatedEntries(facts: seq<Fact>): seq<Entry> {
    Entries(facts, 0)
  }

  lemma {:induction false} StreamOfBatches<A, I>(c: Config<A, I>, batches: seq<seq<Fact>>)
    requires forall b, f :: b in batches && f in b ==> f.validFrom.Some?
    ensures StreamOf(BatchCalls(c, batches)) == DatedEntries(Concat(batches))
  {
    var calls := BatchCalls(c, batches);
    if batches != [] {
      var init, last := batches[..|batches| - 1], batches[|batches| - 1];
      assert calls[..|calls| - 1] == BatchCalls(c, init);
      StreamOfBatches(c, init);
      assert forall f :: f in last ==> f.validFrom.Some?;
      assert Entries(last, c.clock(|batches| - 1)) == Entries(last, 0);
      assert Entries(Concat(init) + last, 0) == Entries(Concat(init), 0) + Entries(last, 0);
    }
  }

  /** How far a plain fold has come: accumulator as emitted, and the emitted facts split into
      flushed batches and the pending buffer. */
  ghost predicate Split<A(!new), I(!new)>(c: Config<A, I>, seed: A, log0: seq<Datom>, items: seq<I>, n: nat,
                                          st: Locals<A>, batches: seq<seq<Fact>>)
    requires n <= |items|
  {
    var (acc, facts) := Emitted(c.fn, seed, items[..n]);
    && st.acc == acc && Concat(batches) + st.pending == facts
    && st.log == RunCalls(log0, BatchCalls(c, batches)) && st.flushes == |batches|
  }

  /** The facts, open asserts with dates of their own, go on rising from a forward log. */
  ghost predicate Onwards(log: seq<Datom>, facts: seq<Fact>) {
    WellFormed(log) && Forward(log) && Rising(AssertsOf(log) + DatedEntries(facts))
  }

  lemma {:induction false} OnwardsStart(log: seq<Datom>, facts: seq<Fact>, more: seq<Fact>)
    requires Onwards(log, facts + more)
    ensures Onwards(log, facts)
  {
    hide AssertsOf, Forward;
    assert AssertsOf(log) + DatedEntries(facts + more) == AssertsOf(log) + DatedEntries(facts) + DatedEntries(more);
    RisingStart(AssertsOf(log) + DatedEntries(facts), DatedEntries(more));
  }

  ghost predicate AllDated(facts: seq<Fact>) {
    OpenAsserts(facts) && forall f :: f in facts ==> f.validFrom.Some?
  }

  lemma {:induction false} EmittedDated<A(!new), I(!new)>(fn: (A, I, seq<Datom>) -> Reduced<A>, seed: A, items: seq<I>)
    requires Plain(fn)
    ensures AllDated(Emitted(fn, seed, items).1)
  {
    if items != [] {
      EmittedDated(fn, seed, items[..|items| - 1]);
    }
  }

  lemma {:induction false} InConcat(batches: seq<seq<Fact>>, b: seq<Fact>, f: Fact)
    requires b in batches && f in b
    ensures f in Concat(batches)
  {
    var init, last := batches[..|batches| - 1], batches[|batches| - 1];
    if !(b == last) {
      assert b in init by {
        var k :| 0 <= k < |batches| && batches[k] == b;
        assert init[k] == b;
      }
      InConcat(init, b, f);
    }
  }

  /** Helper: the batches of a split whose facts are dated, open and rising make a legal run. */
  lemma {:induction false} BatchesRun<A, I>(c: Config<A, I>, log0: seq<Datom>, batches: seq<seq<Fact>>,
                                            rest: seq<Fact>)
    requires AllDated(Concat(batches) + rest) && Onwards(log0, Concat(batches) + rest)
    ensures Continues(log0, BatchCalls(c, batches))
    ensures StreamOf(BatchCalls(c, batches)) == DatedEntries(Concat(batches))
  {
    var all := Concat(batches) + rest;
    forall b, f | b in batches && f in b ensures f.validFrom.Some? && f.op.Assert? && f.validTo.None? {
      InConcat(batches, b, f);
      assert f in all;
      var k :| 0 <= k < |all| && all[k] == f;
    }
    StreamOfBatches(c, batches);
    OnwardsStart(log0, Concat(batches), rest);
    forall i | 0 <= i < |batches| ensures OpenAsserts(BatchCalls(c, batches)[i].facts) {
      assert batches[i] in batches;
    }
  }

  /** A flush of rising facts is never refused. */
  lemma {:induction false} PlainFlush<A(!new), I(!new)>(c: Config<A, I>, seed: A, log0: seq<Datom>, items: seq<I>,
                                                        n: nat, st: Locals<A>, batches: seq<seq<Fact>>)
    requires n <= |items| && Split(c, seed, log0, items, n, st, batches) && st.pending != []
    requires AllDated(Emitted(c.fn, seed, items[..n]).1) && Onwards(log0, Emitted(c.fn, seed, items[..n]).1)
    ensures Flushed(c, st).Go? && Split(c, seed, log0, items, n, Flushed(c, st).st, batches + [st.pending])
  {
    hide BuildUpTo, MarkAll, MaxTx, RunCalls, AsOfValidOf, EntityOf, LastValues, UpTo, Concat, AllDated, Emitted;
    var more := batches + [st.pending];
    var call := Call(Index, st.pending, CtxOf(c, st.flushes));
    ConcatSnoc(batches, st.pending);
    assert Concat(more) + [] == Concat(batches) + st.pending;
    BatchesRun(c, log0, batches, st.pending);
    BatchesRun(c, log0, more, []);
    assert BatchCalls(c, more) == BatchCalls(c, batches) + [call];
    RunSnoc(log0, BatchCalls(c, batches), call);
    var calls := BatchCalls(c, more);
    SplitViewsFrom(log0, calls, "", 0);
    assert calls[|batches|] == call && calls[..|batches|] == BatchCalls(c, batches);
  }

  lemma {:induction false} PlainRun<A(!new), I(!new)>(c: Config<A, I>, seed: A, log0: seq<Datom>, items: seq<I>,
                                                      n: nat)
    requires n <= |items| && Plain(c.fn) && Onwards(log0, Emitted(c.fn, seed, items).1)
    ensures After(c, Start(seed, log0), items, n).Go?
    ensures exists batches :: Split(c, seed, log0, items, n, After(c, Start(seed, log0), items, n).st, batches)
  {
    var st0 := Start(seed, log0);
    if n == 0 {
      assert BatchCalls(c, []) == [];
      assert items[..0] == [];
      assert Split(c, seed, log0, items, 0, st0, []);
    } else {
      PlainRun(c, seed, log0, items, n - 1);
      var st := After(c, st0, items, n - 1).st;
      var batches :| Split(c, seed, log0, items, n - 1, st, batches);
      EmittedDated(c.fn, seed, items[..n]);
      EmittedPrefix(c.fn, seed, log0, items, n);
      var more := PlainStep(c, seed, log0, items, n, st, batches);
    }
  }

  lemma {:induction false} PlainReturn<A(!new), I(!new)>(c: Config<A, I>, seed: A, log0: seq<Datom>, items: seq<I>,
                                                         n: nat, st: Locals<A>, batches: seq<seq<Fact>>)
    requires 0 < n <= |items| && Plain(c.fn) && Split(c, seed, log0, items, n - 1, st, batches)
    ensures var r := c.fn(st.acc, items[n - 1], st.log);
            r.Returned? && Split(c, seed, log0, items, n,
                                 st.(acc := r.acc, pending := st.pending + r.facts, since := st.since + 1), batches)
  {
    assert items[..n][..n - 1] == items[..n - 1];
    assert c.fn(st.acc, items[n - 1], st.log) == c.fn(st.acc, items[n - 1], []);
    var r := c.fn(st.acc, items[n - 1], st.log);
    assert Concat(batches) + (st.pending + r.facts) == Concat(batches) + st.pending + r.facts;
  }

  lemma {:induction false} PlainStep<A(!new), I(!new)>(c: Config<A, I>, seed: A, log0: seq<Datom>, items: seq<I>,
                                                       n: nat, st: Locals<A>, batches: seq<seq<Fact>>)
    returns (more: seq<seq<Fact>>)
    requires 0 < n <= |items| && Plain(c.fn) && Split(c, seed, log0, items, n - 1, st, batches)
    requires AllDated(Emitted(c.fn, seed, items[..n]).1) && Onwards(log0, Emitted(c.fn, seed, items[..n]).1)
    ensures ItemStep(c, st, items[n - 1], n - 1).Go?
    ensures Split(c, seed, log0, items, n, ItemStep(c, st, items[n - 1], n - 1).st, more)
  {
    PlainReturn(c, seed, log0, items, n, st, batches);
    var r := c.fn(st.acc, items[n - 1], st.log);
    var st1 := st.(acc := r.acc, pending := st.pending + r.facts, since := st.since + 1);
    more := batches;
    if c.every == 0 || st1.since >= c.every {
      if st1.pending != [] {
        PlainFlush(c, seed, log0, items, n, st1, batches);
        more := batches + [st1.pending];
      } else {
        assert Split(c, seed, log0, items, n, st1.(since := 0), batches);
      }
    }
  }

  lemma {:induction false} EmittedPrefix<A, I>(fn: (A, I, seq<Datom>) -> Reduced<A>, seed: A, log0: seq<Datom>,
                                               items: seq<I>, n: nat)
    requires n <= |items| && Onwards(log0, Emitted(fn, seed, items).1)
    ensures Emitted(fn, seed, items[..n]).1 <= Emitted(fn, seed, items).1
    ensures Onwards(log0, Emitted(fn, seed, items[..n]).1)
    decreases |items|
  {
    hide Onwards;
    if n == |items| {
      assert items[..n] == items;
    } else {
      var init := items[..|items| - 1];
      var part, whole := Emitted(fn, seed, init).1, Emitted(fn, seed, items).1;
      assert whole == part + whole[|part|..];
      OnwardsStart(log0, part, whole[|part|..]);
      EmittedPrefix(fn, seed, log0, init, n);
      assert init[..n] == items[..n];
    }
  }

  /** For a plain reducer over a rising stream, whatever forward log it continues, every checkpoint size returns
      the same accumulator and leaves a log with the same views: the last value of each attribute now,
      and the last one in effect at any valid time. */
  lemma {:induction false} CheckpointSizesAgreeFrom<A(!new), I(!new)>(c: Config<A, I>, seed: A, log0: seq<Datom>,
                                                                      items: seq<I>, e: string, vt: int)
    requires Plain(c.fn) && Onwards(log0, Emitted(c.fn, seed, items).1)
    ensures var (r, log) := FoldOf(c, seed, log0, items);
            var (acc, facts) := Emitted(c.fn, seed, items);
            var all := AssertsOf(log0) + DatedEntries(facts);
            && r.Finished? && r.acc == acc
            && EntityOf(log, e) == LastValues(all, e)
            && EntityOf(AsOfValidOf(log, vt), e) == LastValues(UpTo(all, vt), e)
  {
    PlainRun(c, seed, log0, items, |items|);
    var st := After(c, Start(seed, log0), items, |items|).st;
    var batches :| Split(c, seed, log0, items, |items|, st, batches);
    assert items[..|items|] == items;
    EmittedDated(c.fn, seed, items);
    var all := batches;
    if st.pending != [] {
      PlainFlush(c, seed, log0, items, |items|, st, batches);
      ConcatSnoc(batches, st.pending);
      all := batches + [st.pending];
    }
    assert Concat(all) + [] == Concat(all);
    BatchesRun(c, log0, all, []);
    SplitViewsFrom(log0, BatchCalls(c, all), e, vt);
  }

  /** The same from an empty store. */
  lemma {:induction false} CheckpointSizesAgree<A(!new), I(!new)>(c: Config<A, I>, seed: A, items: seq<I>, e: string,
                                                                  vt: int)
    requires Plain(c.fn) && Rising(DatedEntries(Emitted(c.fn, seed, items).1))
    ensures var (r, log) := FoldOf(c, seed, [], items);
            var (acc, facts) := Emitted(c.fn, seed, items);
            && r.Finished? && r.acc == acc
            && EntityOf(log, e) == LastValues(DatedEntries(facts), e)
            && EntityOf(AsOfValidOf(log, vt), e) == LastValues(UpTo(DatedEntries(facts), vt), e)
  {
    hide FoldOf, Emitted, EntityOf, LastValues, UpTo, Rising;
    FromNothing([]);
    var all := DatedEntries(Emitted(c.fn, seed, items).1);
    assert AssertsOf([]) + all == all;
    CheckpointSizesAgreeFrom(c, seed, [], items, e, vt);
  }
}
