/** Branching from the past: what later calls on the parent change of it (src/persistence/fact/db.py:543-582). */
module Branches {
  import opened Wrappers
  import opened Datoms
  import opened Views
  import opened Transact
  import opened Runs
  import opened Refinement
  import opened LiveAsserts

  // ---- What later calls do to a snapshot ------------------------------------------------

  /** `after` is `before` with the unmarked asserts of the transactions in `txs` marked, and nothing else changed. */
  ghost predicate MarkedBy(before: seq<Datom>, after: seq<Datom>, txs: set<int>) {
    |before| == |after| && forall i :: 0 <= i < |before| ==> MarkedAt(before[i], after[i], txs)
  }

  ghost predicate MarkedAt(b: Datom, a: Datom, txs: set<int>) {
    if b.op.Assert? && b.invalidatedBy.None? && b.tx in txs
    then a.invalidatedBy.Some? && a == b.(invalidatedBy := a.invalidatedBy)
    else a == b
  }

  lemma {:induction false} MarkedTwice(a: seq<Datom>, b: seq<Datom>, c: seq<Datom>, xs: set<int>, ys: set<int>)
    requires MarkedBy(a, b, xs) && MarkedBy(b, c, ys)
    ensures MarkedBy(a, c, xs + ys)
  {
    forall i | 0 <= i < |a| ensures MarkedAt(a[i], c[i], xs + ys) {
      assert MarkedAt(a[i], b[i], xs) && MarkedAt(b[i], c[i], ys);
    }
  }

  lemma {:induction false} AsOfMarked(a: seq<Datom>, b: seq<Datom>, t: int, txs: set<int>)
    requires MarkedBy(a, b, txs)
    ensures MarkedBy(AsOfOf(a, t), AsOfOf(b, t), txs)
    decreases |a|
  {
    if a != [] {
      AsOfMarked(a[..|a| - 1], b[..|b| - 1], t, txs);
      assert MarkedAt(a[|a| - 1], b[|b| - 1], txs);
    }
  }

  /** A call marks whole transactions of what was there before. */
  lemma {:induction false} CallMarks(log: seq<Datom>, c: Call) returns (txs: set<int>)
    ensures |log| <= |LogAfterCall(log, c)| && MarkedBy(log, LogAfterCall(log, c)[..|log|], txs)
  {
    hide BuildUpTo, MaxTx, MarkAll;
    var b, after := BuildAll(c.mode, log, c.facts, c.ctx), LogAfterCall(log, c);
    CallAppends(log, c);
    txs := {};
    if b.Built? && b.draft.datoms != [] {
      var tx := NextTx(log);
      txs := set x | x in b.draft.invalidations;
      forall i | 0 <= i < |log| ensures MarkedAt(log[i], after[i], txs) {
        MarkAllAt(log + Stamped(b.draft.datoms, tx), b.draft.invalidations, tx, i);
      }
    }
  }

  /** The snapshot at `t` after later calls is the one before them with whole transactions marked. */
  lemma {:induction false} SnapshotMarked(log: seq<Datom>, calls: seq<Call>, t: int) returns (txs: set<int>)
    requires forall i :: 0 <= i < |calls| ==> calls[i].ctx.now > t
    ensures MarkedBy(AsOfOf(log, t), AsOfOf(RunCalls(log, calls), t), txs)
  {
    hide AsOfOf, LogAfterCall, MarkedBy;
    if calls == [] {
      txs := {};
      NoMarks(AsOfOf(log, t));
    } else {
      var init, c := calls[..|calls| - 1], calls[|calls| - 1];
      var earlier := SnapshotMarked(log, init, t);
      var mid, after := RunCalls(log, init), RunCalls(log, calls);
      var later := CallMarks(mid, c);
      CallAppends(mid, c);
      AsOfMarked(mid, after[..|mid|], t, later);
      assert after == after[..|mid|] + after[|mid|..];
      AsOfConcat(after[..|mid|], after[|mid|..], t);
      AllLater(after[|mid|..], t);
      assert AsOfOf(after, t) == AsOfOf(after[..|mid|], t);
      txs := earlier + later;
      MarkedTwice(AsOfOf(log, t), AsOfOf(mid, t), AsOfOf(after, t), earlier, later);
    }
  }

  lemma {:induction false} NoMarks(log: seq<Datom>)
    ensures MarkedBy(log, log, {})
  {}

  // ---- One fact ------------------------------------------------------------------------

  /** Datom `i` is the last live assert of (e, a). */
  ghost predicate LastLive(log: seq<Datom>, i: nat, e: string, a: string) {
    && i < |log| && log[i].Live() && log[i].e == e && log[i].a == a
    && forall j :: i < j < |log| && log[j].Live() ==> log[j].e != e || log[j].a != a
  }

  lemma {:induction false} PriorAt(log: seq<Datom>, e: string, a: string) returns (i: nat)
    requires FindPrior(log, e, a).Some?
    ensures LastLive(log, i, e, a) && FindPrior(log, e, a) == Some(log[i])
  {
    var d := log[|log| - 1];
    if d.e == e && d.a == a && d.Live() {
      i := |log| - 1;
    } else {
      i := PriorAt(log[..|log| - 1], e, a);
      assert forall j :: 0 <= j < |log| - 1 ==> log[j] == log[..|log| - 1][j];
    }
  }

  lemma {:induction false} PriorOfLast(log: seq<Datom>, i: nat, e: string, a: string)
    requires LastLive(log, i, e, a)
    ensures FindPrior(log, e, a) == Some(log[i])
  {
    FindPriorFound(log, e, a);
    assert log[i] in log;
    var j := PriorAt(log, e, a);
  }

  /** The assert of (e, a) that a lookup found in `before` has been marked in `after`. */
  ghost predicate Forgotten(before: seq<Datom>, after: seq<Datom>, e: string, a: string) {
    exists i: nat :: LastLive(before, i, e, a) && i < |after| && after[i].invalidatedBy.Some?
  }

  /** If the prior was marked, what is found instead, if anything, is of another transaction. */
  lemma {:induction false} PriorAfterMarks(before: seq<Datom>, after: seq<Datom>, txs: set<int>, e: string, a: string)
    requires MarkedBy(before, after, txs)
    ensures var p, q := FindPrior(before, e, a), FindPrior(after, e, a);
            && (!Forgotten(before, after, e, a) ==> q == p)
            && (Forgotten(before, after, e, a) ==> p.Some? && (q.Some? ==> q.value.tx != p.value.tx))
  {
    hide FindPrior;
    forall i | 0 <= i < |before|
      ensures after[i].e == before[i].e && after[i].a == before[i].a && after[i].tx == before[i].tx
      ensures after[i].Live() <==> before[i].Live() && before[i].tx !in txs
      ensures after[i].Live() ==> after[i] == before[i]
      ensures before[i].Live() ==> (after[i].invalidatedBy.Some? <==> before[i].tx in txs)
    {
      assert MarkedAt(before[i], after[i], txs);
    }
    var p, q := FindPrior(before, e, a), FindPrior(after, e, a);
    FindPriorFound(before, e, a);
    FindPriorFound(after, e, a);
    if q.Some? {
      var j := PriorAt(after, e, a);
      assert before[j].Live() && before[j] in before;
    }
    if p.Some? {
      var i := PriorAt(before, e, a);
      if before[i].tx !in txs {
        assert LastLive(after, i, e, a);
        PriorOfLast(after, i, e, a);
      }
    }
    if Forgotten(before, after, e, a) {
      var i: nat :| LastLive(before, i, e, a) && i < |after| && after[i].invalidatedBy.Some?;
      PriorOfLast(before, i, e, a);
    }
  }

  /** Fact `k` has no prior in its own call, and the one it had in the log has been marked. */
  ghost predicate Loses(before: seq<Datom>, after: seq<Datom>, facts: seq<Fact>, k: nat)
    requires k < |facts|
  {
    var f := facts[k];
    f.op.Assert? && ScanSource(facts, k, f.e, f.a).None? && Forgotten(before, after, f.e, f.a)
  }

  lemma {:induction false} FoundAfterMarks(before: seq<Datom>, after: seq<Datom>, txs: set<int>, facts: seq<Fact>,
                                           k: nat, ctx: Ctx)
    requires MarkedBy(before, after, txs) && k < |facts| && facts[k].op.Assert?
    ensures var p, q := Found(Scan, before, facts, k, ctx), Found(Scan, after, facts, k, ctx);
            && (!Loses(before, after, facts, k) ==> q == p)
            && (Loses(before, after, facts, k) ==> p.Some? && (q.Some? ==> q.value.tx != p.value.tx))
  {
    hide FindPrior, MarkedBy, Forgotten;
    PriorAfterMarks(before, after, txs, facts[k].e, facts[k].a);
  }

  lemma {:induction false} MovesAfterMarks(before: seq<Datom>, after: seq<Datom>, txs: set<int>, facts: seq<Fact>,
                                           k: nat, ctx: Ctx)
    requires MarkedBy(before, after, txs) && k < |facts|
    ensures SameMoveAt(Reader(Scan, before), Reader(Scan, after), facts, k, ctx) <==> !Loses(before, after, facts, k)
    ensures !Loses(before, after, facts, k) ==>
              (RefusedAt(Scan, after, facts, k, ctx) <==> RefusedAt(Scan, before, facts, k, ctx))
  {
    hide Found, MarkedBy, Forgotten;
    if facts[k].op.Assert? {
      FoundAfterMarks(before, after, txs, facts, k, ctx);
    }
  }

  // ---- A whole call -----------------------------------------------------------------------

  /** The first refusal is refused, and nothing before it is. */
  lemma {:induction false} RefusedFirst(mode: Lookup, log: seq<Datom>, facts: seq<Fact>, n: nat, ctx: Ctx)
    requires n <= |facts|
    ensures match FirstRefusal(mode, log, facts, n, ctx)
            case Some(i) => i < n && RefusedAt(mode, log, facts, i, ctx)
                            && forall k :: 0 <= k < i ==> !RefusedAt(mode, log, facts, k, ctx)
            case None => forall k :: 0 <= k < n ==> !RefusedAt(mode, log, facts, k, ctx)
  {
    hide RefusedAt;
    if n > 0 {
      RefusedFirst(mode, log, facts, n - 1, ctx);
    }
  }

  /** What a call builds, on a log and on the same log with whole transactions marked, is the same if and only
      if, where the first accepts it, no fact loses its prior to the marks; and where the first refuses
      a fact, the marks leave that fact refused and none before it. */
  ghost predicate SameDespite(before: seq<Datom>, after: seq<Datom>, facts: seq<Fact>, ctx: Ctx) {
    match FirstRefusal(Scan, before, facts, |facts|, ctx)
    case None => forall k :: 0 <= k < |facts| ==> !Loses(before, after, facts, k)
    case Some(r) =>
      && r < |facts| && RefusedAt(Scan, after, facts, r, ctx)
      && forall k :: 0 <= k < r ==> !RefusedAt(Scan, after, facts, k, ctx)
  }

  lemma {:induction false} SameBuildIff(before: seq<Datom>, after: seq<Datom>, txs: set<int>, facts: seq<Fact>,
                                        ctx: Ctx)
    requires MarkedBy(before, after, txs)
    ensures BuildAll(Scan, after, facts, ctx) == BuildAll(Scan, before, facts, ctx) <==>
            SameDespite(before, after, facts, ctx)
  {
    hide Loses, BuildUpTo, Found, MarkedBy, FirstRefusal, RefusedAt, SameMoveAt;
    var n := |facts|;
    RefusalIsFirst(Scan, before, facts, n, ctx);
    RefusalIsFirst(Scan, after, facts, n, ctx);
    RefusedFirst(Scan, before, facts, n, ctx);
    RefusedFirst(Scan, after, facts, n, ctx);
    forall k | 0 <= k < n
      ensures SameMoveAt(Reader(Scan, before), Reader(Scan, after), facts, k, ctx) <==> !Loses(before, after, facts, k)
      ensures !Loses(before, after, facts, k) ==>
                (RefusedAt(Scan, after, facts, k, ctx) <==> RefusedAt(Scan, before, facts, k, ctx))
    {
      MovesAfterMarks(before, after, txs, facts, k, ctx);
    }
    if BuildAll(Scan, before, facts, ctx).Built? && BuildAll(Scan, after, facts, ctx).Built? {
      SameDraftsIff(Reader(Scan, before), Reader(Scan, after), facts, n, ctx);
    }
  }

  /** A branch at `t` depends on what the parent does later, for the marks later calls set are in its seed:
      it has the outcome and the draft of a branch taken before them if and only if the marks take no
      prior from its assertions and, where one was refused, leave that one refused first. */
  lemma {:induction false} BranchIsStableIff(log: seq<Datom>, calls: seq<Call>, t: int, facts: seq<Fact>, ctx: Ctx)
    requires forall i :: 0 <= i < |calls| ==> calls[i].ctx.now > t
    ensures var before, after := AsOfOf(log, t), AsOfOf(RunCalls(log, calls), t);
            BuildAll(Scan, after, facts, ctx) == BuildAll(Scan, before, facts, ctx) <==>
            SameDespite(before, after, facts, ctx)
  {
    hide AsOfOf, BuildAll, SameDespite;
    var txs := SnapshotMarked(log, calls, t);
    SameBuildIff(AsOfOf(log, t), AsOfOf(RunCalls(log, calls), t), txs, facts, ctx);
  }

  /** Where a key has at most one live assert at `t`, that is exactly when the marks take no prior: from any
      assertion if the branch was accepted, from the one refused if not. */
  lemma {:induction false} OneLiveBranchIff(log: seq<Datom>, calls: seq<Call>, t: int, facts: seq<Fact>, ctx: Ctx)
    requires (forall i :: 0 <= i < |calls| ==> calls[i].ctx.now > t) && OneLive(AsOfOf(log, t))
    ensures var before, after := AsOfOf(log, t), AsOfOf(RunCalls(log, calls), t);
            BuildAll(Scan, after, facts, ctx) == BuildAll(Scan, before, facts, ctx) <==>
            match BuildAll(Scan, before, facts, ctx)
            case Refused(r) => r < |facts| && !Loses(before, after, facts, r)
            case Built(_) => forall k :: 0 <= k < |facts| ==> !Loses(before, after, facts, k)
  {
    hide AsOfOf, BuildUpTo, Loses, OneLive, FirstRefusal, RefusedAt, Found;
    var before, after, n := AsOfOf(log, t), AsOfOf(RunCalls(log, calls), t), |facts|;
    var txs := SnapshotMarked(log, calls, t);
    BranchIsStableIff(log, calls, t, facts, ctx);
    RefusalIsFirst(Scan, before, facts, n, ctx);
    RefusedFirst(Scan, before, facts, n, ctx);
    forall k | 0 <= k < n
      ensures RefusedAt(Scan, after, facts, k, ctx) <==>
              RefusedAt(Scan, before, facts, k, ctx) && !Loses(before, after, facts, k)
    {
      OneLiveRefused(before, after, txs, facts, k, ctx);
    }
  }

  lemma {:induction false} OneLiveRefused(before: seq<Datom>, after: seq<Datom>, txs: set<int>, facts: seq<Fact>,
                                          k: nat, ctx: Ctx)
    requires MarkedBy(before, after, txs) && OneLive(before) && k < |facts|
    ensures RefusedAt(Scan, after, facts, k, ctx) <==>
            RefusedAt(Scan, before, facts, k, ctx) && !Loses(before, after, facts, k)
  {
    hide OneLive, MarkedBy, FindPrior, LastLive;
    MovesAfterMarks(before, after, txs, facts, k, ctx);
    var f := facts[k];
    if Loses(before, after, facts, k) && FindPrior(after, f.e, f.a).Some? {
      NothingElseLive(before, after, txs, f.e, f.a);
    }
  }

  lemma {:induction false} NothingElseLive(before: seq<Datom>, after: seq<Datom>, txs: set<int>, e: string, a: string)
    requires MarkedBy(before, after, txs) && OneLive(before) && Forgotten(before, after, e, a)
    ensures FindPrior(after, e, a).None?
  {
    hide OneLive, FindPrior;
    var i: nat :| LastLive(before, i, e, a) && i < |after| && after[i].invalidatedBy.Some?;
    if FindPrior(after, e, a).Some? {
      var j := PriorAt(after, e, a);
      assert MarkedAt(before[j], after[j], txs) && MarkedAt(before[i], after[i], txs);
      if j < i {
        LiveIsUnique(before, j, i);
      }
    }
  }

  /** A call of one assert is refused exactly when it finds a prior in the log that is later. */
  lemma {:induction false} OneAssertRefused(mode: Lookup, log: seq<Datom>, f: Fact, ctx: Ctx)
    requires f.op.Assert?
    ensures var p := FindPrior(log, f.e, f.a);
            BuildAll(mode, log, [f], ctx) == Refused(0) <==>
            p.Some? && ValidFromOf(f, ctx.now) < p.value.validFrom && !ctx.force
    ensures BuildAll(mode, log, [f], ctx) == Refused(0) || BuildAll(mode, log, [f], ctx).Built?
  {
    hide BuildUpTo, FindPrior, Bare;
    RefusalIsFirst(mode, log, [f], 1, ctx);
    assert Found(mode, log, [f], 0, ctx) == FindPrior(log, f.e, f.a);
    assert FirstRefusal(mode, log, [f], 0, ctx).None?;
  }

  lemma {:induction false} OverwriteMarks(mode: Lookup, d: Datom, f: Fact, ctx: Ctx)
    requires d.Live() && d.tx == 1 && IsBare(d.a) && f.op.Assert? && f.e == d.e && f.a == d.a
    requires d.validFrom <= ValidFromOf(f, ctx.now)
    ensures var after := LogAfter(mode, [d], [f], ctx);
            |after| > 0 && after[0].invalidatedBy.Some? && after[0] == d.(invalidatedBy := after[0].invalidatedBy)
  {
    hide BuildUpTo, Bare, Commit;
    var log := [d];
    assert log[..0] == [] && FindPrior(log, f.e, f.a) == Some(d);
    OneAssertRefused(mode, log, f, ctx);
    var draft := BuildAll(mode, log, [f], ctx).draft;
    DraftCommittable(mode, log, [f], ctx);
    assert Found(mode, log, [f], 0, ctx) == Some(d) && Overwrites(mode, log, [f], 1, ctx, 1);
    InvalidationsAre(mode, log, [f], 1, ctx, 1);
    CommitLength(log, draft);
    CommitAt(log, draft, 0);
  }

  lemma {:induction false} FirstOfSnapshot(d: Datom, c: Call, t: int)
    requires d.txTime <= t < c.ctx.now
    ensures AsOfOf([d], t) == [d] && |LogAfterCall([d], c)| > 0
    ensures LogAfterCall([d], c)[0].txTime == d.txTime ==> AsOfOf(LogAfterCall([d], c), t) == [LogAfterCall([d], c)[0]]
  {
    hide LogAfterCall;
    var after := LogAfterCall([d], c);
    CallAppends([d], c);
    assert after == after[..1] + after[1..] && after[..1] == [after[0]];
    AsOfConcat(after[..1], after[1..], t);
    AllLater(after[1..], t);
    assert [d][..0] == [] && [after[0]][..0] == [];
  }

  /** An input: a value recorded at `t`, overwritten later by an ordinary call. A branch at `t` that asserts an
      earlier value is refused before the call and accepted after it. */
  lemma {:induction false} LaterCallOpensTheBranch(d: Datom, f1: Fact, f2: Fact, mode: Lookup, ctx1: Ctx, ctx: Ctx)
    requires d.Live() && d.tx == 1 && IsBare(d.a) && f1.op.Assert? && f2.op.Assert? && !ctx.force
    requires f1.e == f2.e == d.e && f1.a == f2.a == d.a && d.txTime < ctx1.now
    requires ValidFromOf(f2, ctx.now) < d.validFrom <= ValidFromOf(f1, ctx1.now)
    ensures var later := RunCalls([d], [Call(mode, [f1], ctx1)]);
            && BuildAll(Scan, AsOfOf([d], d.txTime), [f2], ctx) == Refused(0)
            && BuildAll(Scan, AsOfOf(later, d.txTime), [f2], ctx).Built?
  {
    hide BuildAll, Bare, LogAfter, AsOfOf;
    var c := Call(mode, [f1], ctx1);
    var after := LogAfterCall([d], c);
    assert [c][..0] == [] && RunCalls([d], [c]) == after;
    OverwriteMarks(mode, d, f1, ctx1);
    FirstOfSnapshot(d, c, d.txTime);
    assert [d][..0] == [] && FindPrior([d], f2.e, f2.a) == Some(d);
    OneAssertRefused(Scan, [d], f2, ctx);
    assert [after[0]][..0] == [] && FindPrior([after[0]], f2.e, f2.a) == None;
    OneAssertRefused(Scan, [after[0]], f2, ctx);
  }
}
