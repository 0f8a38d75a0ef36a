/** One live assert per (e, a), and the intervals of companions (src/persistence/fact/db.py:239-338). */
module LiveAsserts {
  import opened Wrappers
  import opened Datoms
  import opened Transact
  import opened Runs
  import opened Refinement

  /** The keys of the live asserts, in log order. */
  function LiveKeys(ds: seq<Datom>): seq<Key> {
    if ds == [] then []
    else
      var d := ds[|ds| - 1];
      LiveKeys(ds[..|ds| - 1]) + if d.Live() then [(d.e, d.a)] else []
  }

  predicate OpenAssert(f: Fact) {
    f.op.Assert? && f.validTo.None?
  }

  /** The stored keys a call asserts with an open interval, in call order. */
  function OpenKeys(facts: seq<Fact>): seq<Key> {
    if facts == [] then []
    else
      var f := facts[|facts| - 1];
      OpenKeys(facts[..|facts| - 1]) + if OpenAssert(f) then [(f.e, Bare(f.a))] else []
  }

  ghost predicate NoDup(s: seq<Key>) {
    forall i, j :: 0 <= i < j < |s| ==> s[i] != s[j]
  }

  /** At most one live assert per (e, a). */
  ghost predicate OneLive(log: seq<Datom>) {
    NoDup(LiveKeys(log))
  }

  predicate BareCall(facts: seq<Fact>) {
    forall i :: 0 <= i < |facts| && facts[i].op.Assert? ==> IsBare(facts[i].a)
  }

  lemma {:induction false} LiveKeysConcat(a: seq<Datom>, b: seq<Datom>)
    ensures LiveKeys(a + b) == LiveKeys(a) + LiveKeys(b)
    decreases |b|
  {
    if b == [] {
      assert a + b == a;
    } else {
      assert (a + b)[..|a + b| - 1] == a + b[..|b| - 1];
      LiveKeysConcat(a, b[..|b| - 1]);
    }
  }

  lemma {:induction false} LiveKeyIn(ds: seq<Datom>, i: nat)
    requires i < |ds| && ds[i].Live()
    ensures (ds[i].e, ds[i].a) in LiveKeys(ds)
  {
    if i < |ds| - 1 {
      LiveKeyIn(ds[..|ds| - 1], i);
    }
  }

  lemma {:induction false} LiveKeyAt(ds: seq<Datom>, k: Key)
    requires k in LiveKeys(ds)
    ensures exists i :: 0 <= i < |ds| && ds[i].Live() && (ds[i].e, ds[i].a) == k
  {
    var init, d := ds[..|ds| - 1], ds[|ds| - 1];
    if k in LiveKeys(init) {
      LiveKeyAt(init, k);
      var i :| 0 <= i < |init| && init[i].Live() && (init[i].e, init[i].a) == k;
      assert ds[i] == init[i];
    } else {
      assert d.Live() && (d.e, d.a) == k;
    }
  }

  lemma {:induction false} OpenKeyAt(facts: seq<Fact>, k: Key)
    requires k in OpenKeys(facts)
    ensures exists i :: 0 <= i < |facts| && OpenAssert(facts[i]) && (facts[i].e, Bare(facts[i].a)) == k
  {
    hide Bare;
    var init, f := facts[..|facts| - 1], facts[|facts| - 1];
    if k in OpenKeys(init) {
      OpenKeyAt(init, k);
      var i :| 0 <= i < |init| && OpenAssert(init[i]) && (init[i].e, Bare(init[i].a)) == k;
      assert facts[i] == init[i];
    } else {
      assert OpenAssert(f) && (f.e, Bare(f.a)) == k;
    }
  }

  lemma {:induction false} LiveIsUnique(ds: seq<Datom>, i: nat, j: nat)
    requires i < j < |ds| && ds[i].Live() && ds[j].Live() && OneLive(ds)
    ensures (ds[i].e, ds[i].a) != (ds[j].e, ds[j].a)
    decreases |ds|
  {
    var init := ds[..|ds| - 1];
    var ks, ks0 := LiveKeys(ds), LiveKeys(init);
    assert forall m :: 0 <= m < |ks0| ==> ks[m] == ks0[m];
    if j < |ds| - 1 {
      LiveIsUnique(init, i, j);
    } else {
      LiveKeyIn(init, i);
      var m :| 0 <= m < |ks0| && ks0[m] == (ds[i].e, ds[i].a);
      assert ks[m] == ks0[m] && ks[|ks| - 1] == (ds[j].e, ds[j].a);
    }
  }

  /** `b` is `a` with some live asserts no longer live. */
  ghost predicate FewerLive(a: seq<Datom>, b: seq<Datom>) {
    |a| == |b| && forall i :: 0 <= i < |a| ==> a[i].e == b[i].e && a[i].a == b[i].a && (b[i].Live() ==> a[i].Live())
  }

  lemma {:induction false} FewerKeepOneLive(a: seq<Datom>, b: seq<Datom>)
    requires FewerLive(a, b) && OneLive(a)
    ensures OneLive(b) && forall k :: k in LiveKeys(b) ==> k in LiveKeys(a)
    decreases |a|
  {
    if a != [] {
      var a0, b0 := a[..|a| - 1], b[..|b| - 1];
      var ka, ka0 := LiveKeys(a), LiveKeys(a0);
      assert forall m :: 0 <= m < |ka0| ==> ka[m] == ka0[m];
      FewerKeepOneLive(a0, b0);
      if b[|b| - 1].Live() {
        assert ka[|ka| - 1] !in ka0;
      }
    }
  }

  lemma {:induction false} SameLiveKeys(a: seq<Datom>, b: seq<Datom>)
    requires FewerLive(a, b) && FewerLive(b, a)
    ensures LiveKeys(a) == LiveKeys(b)
    decreases |a|
  {
    if a != [] {
      SameLiveKeys(a[..|a| - 1], b[..|b| - 1]);
    }
  }

  lemma {:induction false} LiveKeysSnoc(ds: seq<Datom>, d: Datom)
    ensures LiveKeys(ds + [d]) == LiveKeys(ds) + if d.Live() then [(d.e, d.a)] else []
  {
    assert (ds + [d])[..|ds|] == ds;
  }

  /** A draft's live asserts are the call's open facts, whatever the lookup. */
  lemma {:induction false} DraftLive(mode: Lookup, log: seq<Datom>, facts: seq<Fact>, n: nat, ctx: Ctx)
    requires n <= |facts| && BuildUpTo(mode, log, facts, n, ctx).Built?
    ensures LiveKeys(BuildUpTo(mode, log, facts, n, ctx).draft.datoms) == OpenKeys(facts[..n])
  {
    if n > 0 {
      DraftLive(mode, log, facts, n - 1, ctx);
      assert facts[..n][..n - 1] == facts[..n - 1];
      var d := BuildUpTo(mode, log, facts, n - 1, ctx).draft;
      DraftLiveStep(d, facts[n - 1], PriorOf(mode, log, facts, n - 1, d.datoms, ctx), ctx);
    }
  }

  lemma {:induction false} DraftLiveStep(d: Draft, f: Fact, prior: Option<Datom>, ctx: Ctx)
    ensures Step(d, f, prior, ctx).Some? ==>
              LiveKeys(Step(d, f, prior, ctx).value.datoms) ==
              LiveKeys(d.datoms) + if OpenAssert(f) then [(f.e, Bare(f.a))] else []
  {
    if f.op.Assert? && prior.Some? {
      var c := Companion(prior.value, ValidFromOf(f, ctx.now), ctx.now);
      StepAppends(d, f, prior, ctx);
      LiveKeysSnoc(d.datoms, c);
      LiveKeysSnoc(d.datoms + [c], FactDatom(f, ctx));
    } else {
      LiveKeysSnoc(d.datoms, FactDatom(f, ctx));
    }
  }

  lemma {:induction false} NoSources(facts: seq<Fact>, n: nat, e: string, a: string)
    requires n <= |facts| && BareCall(facts)
    requires forall j :: 0 <= j < n && facts[j].op.Assert? ==> facts[j].e != e || facts[j].a != a
    ensures ScanSource(facts, n, e, a).None? && IndexSource(facts, n, e, a).None?
  {
    if n > 0 {
      NoSources(facts, n - 1, e, a);
    }
  }

  /** What is live once a draft is committed: the old that it does not mark, and its own. */
  lemma {:induction false} LiveAfter(log: seq<Datom>, d: Draft)
    requires WellFormed(log) && Committable(log, d)
    ensures var after := Commit(log, d);
            && |after| == |log| + |d.datoms|
            && (forall i :: 0 <= i < |log| ==>
                  && after[i].e == log[i].e && after[i].a == log[i].a
                  && (after[i].Live() <==> log[i].Live() && log[i].tx !in d.invalidations))
            && FewerLive(d.datoms, after[|log|..]) && FewerLive(after[|log|..], d.datoms)
  {
    hide Commit, MaxTx;
    var after := Commit(log, d);
    CommitLength(log, d);
    forall i | 0 <= i < |log|
      ensures after[i].e == log[i].e && after[i].a == log[i].a
      ensures after[i].Live() <==> log[i].Live() && log[i].tx !in d.invalidations
    {
      CommitAt(log, d, i);
    }
    forall i | 0 <= i < |d.datoms|
      ensures after[|log| + i].e == d.datoms[i].e && after[|log| + i].a == d.datoms[i].a
      ensures after[|log| + i].Live() <==> d.datoms[i].Live()
    {
      CommitAt(log, d, |log| + i);
    }
  }

  /** Every live assert under one of `keys` is in a transaction that satisfies `marked`. */
  ghost predicate AllMarked(log: seq<Datom>, keys: seq<Key>, marked: int -> bool) {
    forall i :: 0 <= i < |log| && log[i].Live() && (log[i].e, log[i].a) in keys ==> marked(log[i].tx)
  }

  /** Committing a draft keeps one live assert a key if and only if the draft asserts no key twice and
      marks whatever is live under the keys it asserts, wherever the draft came from. */
  lemma {:induction false} CommitKeepsOneLiveIff(log: seq<Datom>, d: Draft)
    requires WellFormed(log) && Committable(log, d) && OneLive(log)
    ensures OneLive(Commit(log, d)) <==>
            NoDup(LiveKeys(d.datoms)) && AllMarked(log, LiveKeys(d.datoms), x => x in d.invalidations)
  {
    hide LiveKeys, Commit, MaxTx, NoDup, Committable;
    var after := Commit(log, d);
    LiveAfter(log, d);
    var older, newer := after[..|log|], after[|log|..];
    SameLiveKeys(d.datoms, newer);
    assert after == older + newer;
    LiveKeysConcat(older, newer);
    FewerKeepOneLive(log, older);
    var ko, kn := LiveKeys(older), LiveKeys(newer);
    NoDupConcat(ko, kn);
    if forall k :: k in ko ==> k !in kn {
      forall i | 0 <= i < |log| && log[i].Live() && (log[i].e, log[i].a) in kn ensures log[i].tx in d.invalidations {
        if log[i].tx !in d.invalidations {
          assert older[i].Live();
          LiveKeyIn(older, i);
        }
      }
    } else {
      var k :| k in ko && k in kn;
      LiveKeyAt(older, k);
      var i :| 0 <= i < |older| && older[i].Live() && (older[i].e, older[i].a) == k;
      assert after[i].Live() && log[i].Live() && (log[i].e, log[i].a) in kn;
    }
  }

  lemma {:induction false} NoDupConcat(a: seq<Key>, b: seq<Key>)
    requires NoDup(a)
    ensures NoDup(a + b) <==> NoDup(b) && forall k :: k in a ==> k !in b
  {
    var s := a + b;
    if NoDup(s) {
      assert forall i :: 0 <= i < |b| ==> b[i] == s[|a| + i];
      forall k | k in a ensures k !in b {
        var i :| 0 <= i < |a| && a[i] == k;
        assert s[i] == k;
      }
    }
    if NoDup(b) && forall k :: k in a ==> k !in b {
      forall i, j | 0 <= i < j < |s| ensures s[i] != s[j] {
        if i < |a| <= j {
          assert s[i] in a && s[j] == b[j - |a|];
        }
      }
    }
  }

  /** From a log with at most one live assert per key, an accepted call, on whatever attributes, leaves
      at most one if and only if no two of its open asserts share a stored key and each live assert
      under such a key is in a transaction the call supersedes a datom of. The condition reads the
      call and the log before it. */
  lemma {:induction false} OneLiveIff(mode: Lookup, log: seq<Datom>, facts: seq<Fact>, ctx: Ctx)
    requires WellFormed(log) && OneLive(log) && BuildAll(mode, log, facts, ctx).Built?
    ensures OneLive(LogAfter(mode, log, facts, ctx)) <==>
            NoDup(OpenKeys(facts))
            && AllMarked(log, OpenKeys(facts), x => Overwrites(mode, log, facts, |facts|, ctx, x))
  {
    hide LiveKeys, OpenKeys, BuildUpTo, Commit, NoDup, Overwrites, OneLive, Committable;
    var d := BuildAll(mode, log, facts, ctx).draft;
    DraftCommittable(mode, log, facts, ctx);
    CommitKeepsOneLiveIff(log, d);
    DraftLive(mode, log, facts, |facts|, ctx);
    assert facts[..|facts|] == facts;
    forall i | 0 <= i < |log|
      ensures log[i].tx in d.invalidations <==> Overwrites(mode, log, facts, |facts|, ctx, log[i].tx)
    {
      InvalidationsAre(mode, log, facts, |facts|, ctx, log[i].tx);
    }
  }

  /** Under bare attributes the second half always holds. */
  lemma {:induction false} BareCallsOneLiveIff(mode: Lookup, log: seq<Datom>, facts: seq<Fact>, ctx: Ctx)
    requires WellFormed(log) && OneLive(log) && BareCall(facts) && BuildAll(mode, log, facts, ctx).Built?
    ensures OneLive(LogAfter(mode, log, facts, ctx)) <==> NoDup(OpenKeys(facts))
  {
    hide LiveKeys, OpenKeys, BuildUpTo, LogAfter, NoDup, Overwrites, Bare, OneLive;
    OneLiveIff(mode, log, facts, ctx);
    OldKeysAreOverwritten(mode, log, facts, ctx);
  }

  lemma {:induction false} OldKeysAreOverwritten(mode: Lookup, log: seq<Datom>, facts: seq<Fact>, ctx: Ctx)
    requires OneLive(log) && BareCall(facts)
    ensures AllMarked(log, OpenKeys(facts), x => Overwrites(mode, log, facts, |facts|, ctx, x))
  {
    hide LiveKeys, OpenKeys, Overwrites, Bare, OneLive;
    forall i | 0 <= i < |log| && log[i].Live() && (log[i].e, log[i].a) in OpenKeys(facts)
      ensures Overwrites(mode, log, facts, |facts|, ctx, log[i].tx)
    {
      OpenKeyAt(facts, (log[i].e, log[i].a));
      var k :| 0 <= k < |facts| && OpenAssert(facts[k]) && (facts[k].e, Bare(facts[k].a)) == (log[i].e, log[i].a);
      assert Bare(facts[k].a) == facts[k].a;
      OldKeyIsOverwritten(mode, log, facts, k, ctx, i);
    }
  }

  /** The first assert of a key in a call supersedes what is live under it in the log. */
  lemma {:induction false} OldKeyIsOverwritten(mode: Lookup, log: seq<Datom>, facts: seq<Fact>, k: nat, ctx: Ctx,
                                               i: nat)
    requires OneLive(log) && BareCall(facts) && i < |log| && log[i].Live()
    requires k < |facts| && facts[k].op.Assert? && (facts[k].e, facts[k].a) == (log[i].e, log[i].a)
    ensures Overwrites(mode, log, facts, |facts|, ctx, log[i].tx)
    decreases k
  {
    hide FindPrior, Bare, OneLive;
    var f := facts[k];
    if j :| 0 <= j < k && facts[j].op.Assert? && facts[j].e == f.e && facts[j].a == f.a {
      OldKeyIsOverwritten(mode, log, facts, j, ctx, i);
    } else {
      NoSources(facts, k, f.e, f.a);
      FindPriorFound(log, f.e, f.a);
      assert log[i] in log;
      var q :| 0 <= q < |log| && log[q] == FindPrior(log, f.e, f.a).value;
      if q < i {
        LiveIsUnique(log, q, i);
      } else if i < q {
        LiveIsUnique(log, i, q);
      }
      assert Found(mode, log, facts, k, ctx) == Some(log[i]);
    }
  }

  /** Asserts under colon-prefixed attributes supersede nothing that is in the log already, by either
      transactor: such a call leaves at most one live assert a key if and only if nothing is live under
      its stored keys and no two of its open asserts share one. A later bare assert does supersede what
      it leaves (`BareCallsOneLiveIff`). */
  lemma {:induction false} ColonCallsOneLiveIff(mode: Lookup, log: seq<Datom>, facts: seq<Fact>, ctx: Ctx)
    requires WellFormed(log) && OneLive(log) && BuildAll(mode, log, facts, ctx).Built?
    requires forall i :: 0 <= i < |facts| && facts[i].op.Assert? ==> !IsBare(facts[i].a)
    ensures OneLive(LogAfter(mode, log, facts, ctx)) <==>
            NoDup(OpenKeys(facts)) && forall k :: k in LiveKeys(log) ==> k !in OpenKeys(facts)
  {
    hide LiveKeys, OpenKeys, BuildUpTo, LogAfter, NoDup, Found, OneLive;
    OneLiveIff(mode, log, facts, ctx);
    forall i | 0 <= i < |log| ensures !Overwrites(mode, log, facts, |facts|, ctx, log[i].tx) {
      if Overwrites(mode, log, facts, |facts|, ctx, log[i].tx) {
        var k :| 0 <= k < |facts| && facts[k].op.Assert? && Found(mode, log, facts, k, ctx).Some?
                 && Found(mode, log, facts, k, ctx).value.tx == log[i].tx;
        FoundTx(mode, log, facts, k, ctx);
        assert false;
      }
    }
    forall k | k in LiveKeys(log) && k in OpenKeys(facts)
      ensures !AllMarked(log, OpenKeys(facts), x => Overwrites(mode, log, facts, |facts|, ctx, x))
    {
      LiveKeyAt(log, k);
      var i :| 0 <= i < |log| && log[i].Live() && (log[i].e, log[i].a) == k;
    }
    forall i | 0 <= i < |log| && log[i].Live() ensures (log[i].e, log[i].a) in LiveKeys(log) {
      LiveKeyIn(log, i);
    }
  }

  /** Over every sequential run of such calls, refused ones included, each key keeps at most one live assert. */
  lemma {:induction false} RunsKeepOneLive(calls: seq<Call>)
    requires forall i :: 0 <= i < |calls| ==> BareCall(calls[i].facts) && NoDup(OpenKeys(calls[i].facts))
    ensures WellFormed(RunCalls([], calls)) && OneLive(RunCalls([], calls))
  {
    if calls != [] {
      var init, c := calls[..|calls| - 1], calls[|calls| - 1];
      RunsKeepOneLive(init);
      var log := RunCalls([], init);
      if BuildAll(c.mode, log, c.facts, c.ctx).Built? {
        BareCallsOneLiveIff(c.mode, log, c.facts, c.ctx);
        DraftBare(c.mode, log, c.facts, |c.facts|, c.ctx);
        CommitWellFormed(log, BuildAll(c.mode, log, c.facts, c.ctx).draft);
      }
    }
  }

  /** So one open assert under a colon-prefixed attribute, on a key that is live, leaves two live asserts. */
  lemma {:induction false} ColonLeavesTwoLive(mode: Lookup, log: seq<Datom>, f: Fact, ctx: Ctx)
    requires WellFormed(log) && OneLive(log) && OpenAssert(f) && !IsBare(f.a) && (f.e, Bare(f.a)) in LiveKeys(log)
    ensures BuildAll(mode, log, [f], ctx).Built? && !OneLive(LogAfter(mode, log, [f], ctx))
  {
    hide LiveKeys, BuildUpTo, LogAfter, OneLive, Bare, NoDup;
    FindPriorFound(log, f.e, f.a);
    assert Found(mode, log, [f], 0, ctx).None?;
    RefusalIsFirst(mode, log, [f], 1, ctx);
    assert OpenKeys([f]) == OpenKeys([f][..0]) + [(f.e, Bare(f.a))];
    ColonCallsOneLiveIff(mode, log, [f], ctx);
  }

  /** Over-invalidation: a key that a call does not assert is left without a prior to find, though nothing
      supersedes its value, if and only if every assert live under it is in a transaction of which the
      call supersedes a datom. */
  lemma {:induction false} NeighbourIsForgottenIff(mode: Lookup, log: seq<Datom>, facts: seq<Fact>, ctx: Ctx,
                                                   e: string, a: string)
    requires WellFormed(log) && BuildAll(mode, log, facts, ctx).Built? && (e, a) !in OpenKeys(facts)
    ensures FindPrior(LogAfter(mode, log, facts, ctx), e, a).None? <==>
            AllMarked(log, [(e, a)], x => Overwrites(mode, log, facts, |facts|, ctx, x))
  {
    hide LiveKeys, OpenKeys, BuildUpTo, Commit, NoDup, Overwrites, Committable, FindPrior;
    var d, after := BuildAll(mode, log, facts, ctx).draft, LogAfter(mode, log, facts, ctx);
    DraftCommittable(mode, log, facts, ctx);
    LiveAfter(log, d);
    DraftLive(mode, log, facts, |facts|, ctx);
    assert facts[..|facts|] == facts;
    FindPriorFound(after, e, a);
    forall i | 0 <= i < |log|
      ensures log[i].tx in d.invalidations <==> Overwrites(mode, log, facts, |facts|, ctx, log[i].tx)
    {
      InvalidationsAre(mode, log, facts, |facts|, ctx, log[i].tx);
    }
    assert forall i :: 0 <= i < |log| ==> after[i] in after;
    var p := FindPrior(after, e, a);
    if p.Some? {
      var j :| 0 <= j < |after| && after[j] == p.value;
      if j >= |log| {
        assert d.datoms[j - |log|].Live() && after[|log|..][j - |log|] == after[j];
        LiveKeyIn(d.datoms, j - |log|);
      }
    }
  }

  // ---- Companions ------------------------------------------------------------------

  /** A companion's interval is never negative and it names its own transaction. */
  predicate SaneCompanion(d: Datom) {
    d.op.Retract? && d.prov.supersededBy.Some? ==>
      d.validTo.Some? && d.validFrom <= d.validTo.value && d.prov.supersededBy == Some(d.tx)
  }

  lemma {:induction false} DraftCompanions(mode: Lookup, log: seq<Datom>, facts: seq<Fact>, n: nat, ctx: Ctx)
    requires n <= |facts| && BuildUpTo(mode, log, facts, n, ctx).Built?
    ensures forall d :: d in BuildUpTo(mode, log, facts, n, ctx).draft.datoms ==>
             SaneCompanion(d) && d.tx == TX_PLACEHOLDER
  {
    if n > 0 {
      DraftCompanions(mode, log, facts, n - 1, ctx);
    }
  }

  /** In every run, forced corrections and arbitrary facts included. */
  lemma {:induction false} CompanionsKeepOrder(log: seq<Datom>, calls: seq<Call>)
    requires forall d :: d in log ==> SaneCompanion(d)
    ensures forall d :: d in RunCalls(log, calls) ==> SaneCompanion(d)
  {
    if calls != [] {
      var init, c := calls[..|calls| - 1], calls[|calls| - 1];
      CompanionsKeepOrder(log, init);
      var mid := RunCalls(log, init);
      var b := BuildAll(c.mode, mid, c.facts, c.ctx);
      if b.Built? && b.draft.datoms != [] {
        DraftCompanions(c.mode, mid, c.facts, |c.facts|, c.ctx);
        var tx := NextTx(mid);
        var appended := mid + Stamped(b.draft.datoms, tx);
        MarkAllKeepsRest(appended, b.draft.invalidations, tx);
        var after := RunCalls(log, calls);
        forall i | 0 <= i < |after| ensures SaneCompanion(after[i]) {
          assert after[i].Erased() == appended[i].Erased();
          if i >= |mid| {
            assert SaneCompanion(b.draft.datoms[i - |mid|]);
          } else {
            assert SaneCompanion(mid[i]);
          }
        }
      }
    }
  }
}
