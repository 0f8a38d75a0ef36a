/** When the streamed cache mirrors `entity`, over whole runs of calls (src/persistence/fact/projection.py:68-159). */
module Mirror {
  import opened Wrappers
  import opened Datoms
  import opened Views
  import opened Transact
  import opened Runs
  import opened Projection

  // ---- Steadiness and marks ----------------------------------------------------------

  lemma {:induction false} TopIgnoresMarks(a: seq<Datom>, b: seq<Datom>, e: string, at: string)
    requires SameButMarks(a, b)
    ensures TopIndex(a, e, at) == TopIndex(b, e, at)
    decreases |a|
  {
    if a != [] {
      TopIgnoresMarks(a[..|a| - 1], b[..|b| - 1], e, at);
      SameFields(a, b, |a| - 1);
      var r := TopIndex(a[..|a| - 1], e, at);
      if r.Some? {
        SameFields(a, b, r.value);
      }
    }
  }

  lemma {:induction false} SameFields(a: seq<Datom>, b: seq<Datom>, i: nat)
    requires SameButMarks(a, b) && i < |a|
    ensures a[i].e == b[i].e && a[i].a == b[i].a && a[i].v == b[i].v && a[i].tx == b[i].tx
    ensures a[i].validFrom == b[i].validFrom && a[i].op == b[i].op
  {
    var x, y := a[i].Erased(), b[i].Erased();
    assert x == y && x.e == a[i].e && x.a == a[i].a && x.v == a[i].v && x.tx == a[i].tx;
    assert y.e == b[i].e && y.a == b[i].a && y.v == b[i].v && y.tx == b[i].tx;
    assert x.validFrom == a[i].validFrom && x.op == a[i].op && y.validFrom == b[i].validFrom && y.op == b[i].op;
  }

  lemma {:induction false} SteadyIgnoresMarks(a: seq<Datom>, b: seq<Datom>)
    requires SameButMarks(a, b) && Steady(a)
    ensures Steady(b)
  {
    hide TopIndex, SameButMarks;
    forall n | 0 <= n < |b| ensures SteadyAt(b, n) {
      SameLength(a, b);
      assert SteadyAt(a, n);
      PrefixMarks(a, b, n);
      TopIgnoresMarks(a[..n], b[..n], b[n].e, b[n].a);
      SameFields(a, b, n);
      if n > 0 {
        SameFields(a, b, n - 1);
      }
      if n + 1 < |a| {
        SameFields(a, b, n + 1);
      }
      var top := TopIndex(a[..n], b[n].e, b[n].a);
      if top.Some? {
        SameFields(a, b, top.value);
      }
    }
  }

  lemma {:induction false} SameLength(a: seq<Datom>, b: seq<Datom>)
    requires SameButMarks(a, b)
    ensures |a| == |b|
  {}

  lemma {:induction false} PrefixMarks(a: seq<Datom>, b: seq<Datom>, n: nat)
    requires SameButMarks(a, b) && n <= |a|
    ensures n <= |b| && SameButMarks(a[..n], b[..n])
  {}

  // ---- One call, datom by datom --------------------------------------------------------

  predicate OfKey(d: Datom, e: string, a: string) {
    d.op.Assert? && d.e == e && d.a == a
  }

  /** Where the newest assert of a key is one of the call's own (from `base` on), it is the last one. */
  ghost predicate OwnTopsLast(cur: seq<Datom>, base: nat) {
    forall e, a, k ::
      TopIndex(cur, e, a).Some? && base <= TopIndex(cur, e, a).value < k < |cur| ==> !OfKey(cur[k], e, a)
  }

  /** A steady log of which the datoms from `base` on are those of transaction `tx`. */
  ghost predicate Growing(cur: seq<Datom>, base: nat, tx: int) {
    && Steady(cur) && OwnTopsLast(cur, base)
    && (forall k :: 0 <= k < |cur| ==> if k < base then cur[k].tx < tx else cur[k].tx == tx)
  }

  ghost predicate NoneOwn(cur: seq<Datom>, base: nat, e: string, a: string) {
    forall k :: base <= k < |cur| ==> !OfKey(cur[k], e, a)
  }

  /** The last assert of the call's own on a key. */
  ghost predicate LastOwn(cur: seq<Datom>, base: nat, m: nat, e: string, a: string) {
    base <= m < |cur| && OfKey(cur[m], e, a) && forall k :: m < k < |cur| ==> !OfKey(cur[k], e, a)
  }

  lemma {:induction false} SteadyPrefix(cur: seq<Datom>, more: seq<Datom>, n: nat)
    requires Steady(cur) && n < |cur|
    ensures SteadyAt(cur + more, n)
  {
    hide TopIndex;
    assert SteadyAt(cur, n) && (cur + more)[..n] == cur[..n];
  }

  lemma {:induction false} AddRetract(cur: seq<Datom>, base: nat, tx: int, r: Datom)
    requires Growing(cur, base, tx) && base <= |cur| && r.op.Retract? && r.tx == tx
    requires forall k :: base <= k < |cur| && cur[k].op.Assert? ==> !Names(r, cur[k])
    ensures Growing(cur + [r], base, tx)
  {
    hide TopIndex, Steady;
    var after := cur + [r];
    forall n | 0 <= n < |after| ensures SteadyAt(after, n) {
      if n < |cur| {
        SteadyPrefix(cur, [r], n);
      } else {
        assert after[..n] == cur;
      }
    }
    assert Steady(after) by {
      AllSteady(after);
    }
    forall e, a ensures TopIndex(after, e, a) == TopIndex(cur, e, a) {
      TopSnoc(cur, r, e, a);
    }
  }

  lemma {:induction false} AllSteady(log: seq<Datom>)
    requires forall n :: 0 <= n < |log| ==> SteadyAt(log, n)
    ensures Steady(log)
  {}

  lemma {:induction false} AddAlone(cur: seq<Datom>, base: nat, tx: int, mine: Datom)
    requires Growing(cur, base, tx) && base <= |cur| && mine.op.Assert? && mine.tx == tx
    requires NoneOwn(cur, base, mine.e, mine.a)
    ensures Growing(cur + [mine], base, tx)
  {
    hide TopIndex, Steady;
    var after := cur + [mine];
    forall n | 0 <= n < |after| ensures SteadyAt(after, n) {
      if n < |cur| {
        SteadyPrefix(cur, [mine], n);
      } else {
        assert after[..n] == cur;
      }
    }
    AllSteady(after);
    forall e, a ensures forall k :: TopIndex(after, e, a).Some? && base <= TopIndex(after, e, a).value < k < |after|
                                    ==> !OfKey(after[k], e, a)
    {
      TopSnoc(cur, mine, e, a);
      assert forall k :: 0 <= k < |cur| ==> after[k] == cur[k];
    }
  }

  /** A companion `c` and the assert `mine` it makes room for: `c` names the call's last own assert of the key,
      or the call has none. */
  ghost predicate FitsPair(cur: seq<Datom>, base: nat, tx: int, c: Datom, mine: Datom, m: Option<nat>) {
    && base <= |cur| && mine.op.Assert? && mine.tx == tx == c.tx
    && c.op.Retract? && c.e == mine.e && c.a == mine.a && c.validFrom <= mine.validFrom
    && (m.None? ==> NoneOwn(cur, base, mine.e, mine.a))
    && (m.Some? ==> LastOwn(cur, base, m.value, mine.e, mine.a) && Names(c, cur[m.value]))
  }

  lemma {:induction false} OwnTopIsNamed(cur: seq<Datom>, base: nat, tx: int, c: Datom, mine: Datom, m: Option<nat>)
    requires Growing(cur, base, tx) && FitsPair(cur, base, tx, c, mine, m)
    ensures var top := TopIndex(cur, mine.e, mine.a);
            top.Some? && cur[top.value].tx == tx ==> m == top && Names(c, cur[top.value])
  {
    hide TopIndex, Steady;
  }

  lemma {:induction false} PairSteady(cur: seq<Datom>, base: nat, tx: int, c: Datom, mine: Datom, m: Option<nat>)
    requires Growing(cur, base, tx) && FitsPair(cur, base, tx, c, mine, m)
    ensures Steady(cur + [c, mine])
  {
    hide TopIndex, Steady, Growing;
    var after, mid := cur + [c, mine], cur + [c];
    OwnTopIsNamed(cur, base, tx, c, mine, m);
    TopSnoc(cur, c, mine.e, mine.a);
    forall n | 0 <= n < |after| ensures SteadyAt(after, n) {
      if n < |cur| {
        GrowsSteady(cur, base, tx);
        SteadyPrefix(cur, [c, mine], n);
      } else if n == |cur| {
        assert after[..n] == cur;
      } else {
        assert after[..n] == mid;
      }
    }
    AllSteady(after);
  }

  lemma {:induction false} GrowsSteady(cur: seq<Datom>, base: nat, tx: int)
    requires Growing(cur, base, tx)
    ensures Steady(cur) && OwnTopsLast(cur, base)
  {}

  lemma {:induction false} AddPair(cur: seq<Datom>, base: nat, tx: int, c: Datom, mine: Datom, m: Option<nat>)
    requires Growing(cur, base, tx) && FitsPair(cur, base, tx, c, mine, m)
    ensures Growing(cur + [c, mine], base, tx)
  {
    hide TopIndex, Steady;
    var after, mid := cur + [c, mine], cur + [c];
    PairSteady(cur, base, tx, c, mine, m);
    OwnTopIsNamed(cur, base, tx, c, mine, m);
    assert after == mid + [mine] && forall k :: 0 <= k < |cur| ==> after[k] == cur[k];
    forall e, a ensures forall k :: TopIndex(after, e, a).Some? && base <= TopIndex(after, e, a).value < k < |after|
                                    ==> !OfKey(after[k], e, a)
    {
      TopSnoc(cur, c, e, a);
      TopSnoc(mid, mine, e, a);
    }
  }

  // ---- Calls and runs -------------------------------------------------------------------

  /** The retract `r` names what the assert `f` of the same call asserts. */
  predicate Takes(f: Fact, r: Fact, now: int) {
    && f.op.Assert? && r.op.Retract? && f.e == r.e && Bare(f.a) == Bare(r.a) && f.v == r.v
    && ValidFromOf(f, now) == ValidFromOf(r, now)
  }

  /** An unforced call of open bare asserts and of retracts, none of which takes back an earlier assert of
      the call. */
  ghost predicate Tidy(c: Call) {
    && !c.ctx.force
    && (forall k :: 0 <= k < |c.facts| && c.facts[k].op.Assert? ==> c.facts[k].validTo.None? && IsBare(c.facts[k].a))
    && (forall j, k :: 0 <= j < k < |c.facts| ==> !Takes(c.facts[j], c.facts[k], c.ctx.now))
  }

  function DraftUpTo(log: seq<Datom>, c: Call, n: nat): seq<Datom>
    requires n <= |c.facts| && BuildUpTo(c.mode, log, c.facts, n, c.ctx).Built?
  {
    BuildUpTo(c.mode, log, c.facts, n, c.ctx).draft.datoms
  }

  /** An assert of a draft is one of its facts' own. */
  lemma {:induction false} DraftAsserts(log: seq<Datom>, c: Call, n: nat, d: Datom)
    requires n <= |c.facts| && BuildUpTo(c.mode, log, c.facts, n, c.ctx).Built?
    requires d in DraftUpTo(log, c, n) && d.op.Assert?
    ensures exists j :: 0 <= j < n && c.facts[j].op.Assert? && d == FactDatom(c.facts[j], c.ctx)
  {
    hide PriorOf, FactDatom;
    if n > 0 && d in DraftUpTo(log, c, n - 1) {
      DraftAsserts(log, c, n - 1, d);
    } else {
      FactKind(c.facts[n - 1], c.ctx);
      assert d == FactDatom(c.facts[n - 1], c.ctx);
    }
  }

  lemma {:induction false} FactKind(f: Fact, ctx: Ctx)
    ensures FactDatom(f, ctx).op == f.op
  {}

  /** Where all asserts are live, the prior found is the last one of the key. */
  lemma {:induction false} PriorIsLast(ds: seq<Datom>, e: string, a: string) returns (m: Option<nat>)
    requires forall k :: 0 <= k < |ds| && ds[k].op.Assert? ==> ds[k].Live()
    ensures m.None? ==> FindPrior(ds, e, a).None? && forall k :: 0 <= k < |ds| ==> !OfKey(ds[k], e, a)
    ensures m.Some? ==> m.value < |ds| && FindPrior(ds, e, a) == Some(ds[m.value]) && OfKey(ds[m.value], e, a)
                        && forall k :: m.value < k < |ds| ==> !OfKey(ds[k], e, a)
    decreases |ds|
  {
    if ds == [] {
      m := None;
    } else {
      var d := ds[|ds| - 1];
      if OfKey(d, e, a) {
        m := Some(|ds| - 1);
      } else {
        m := PriorIsLast(ds[..|ds| - 1], e, a);
        assert forall k :: 0 <= k < |ds| - 1 ==> ds[k] == ds[..|ds| - 1][k];
      }
    }
  }

  /** The prior of a fact of a tidy call: the last own assert of its key, or one of the log. */
  lemma {:induction false} TidyPrior(log: seq<Datom>, c: Call, n: nat) returns (m: Option<nat>)
    requires Tidy(c) && n < |c.facts| && c.facts[n].op.Assert? && BuildUpTo(c.mode, log, c.facts, n, c.ctx).Built?
    ensures var ds, f := DraftUpTo(log, c, n), c.facts[n];
            var prior := PriorOf(c.mode, log, c.facts, n, ds, c.ctx);
            && (m.None? ==> prior == FindPrior(log, f.e, f.a) && forall k :: 0 <= k < |ds| ==> !OfKey(ds[k], f.e, f.a))
            && (m.Some? ==> m.value < |ds| && prior == Some(ds[m.value]) && OfKey(ds[m.value], f.e, f.a)
                            && forall k :: m.value < k < |ds| ==> !OfKey(ds[k], f.e, f.a))
  {
    hide FindPrior, Bare, InBatchOpen, BuildUpTo;
    var ds, f := DraftUpTo(log, c, n), c.facts[n];
    forall k | 0 <= k < |ds| && ds[k].op.Assert? ensures ds[k].Live() {
      DraftAsserts(log, c, n, ds[k]);
    }
    m := PriorIsLast(ds, f.e, f.a);
    PriorIsFound(c.mode, log, c.facts, n, BuildUpTo(c.mode, log, c.facts, n, c.ctx).draft, c.ctx);
    DraftPrior(c.mode, log, c.facts, n, c.ctx, f.e, f.a);
    OpenBareSources(c.facts, n, f.e, f.a);
  }

  lemma {:induction false} StampedConcat(a: seq<Datom>, b: seq<Datom>, tx: int)
    ensures Stamped(a + b, tx) == Stamped(a, tx) + Stamped(b, tx)
  {}

  /** An unforced call of open bare asserts and retracts keeps the log steady, fact by fact. */
  lemma {:induction false} CallGrows(log: seq<Datom>, c: Call, n: nat)
    requires Steady(log) && Tidy(c) && n <= |c.facts| && BuildUpTo(c.mode, log, c.facts, n, c.ctx).Built?
    ensures Growing(log + Stamped(DraftUpTo(log, c, n), NextTx(log)), |log|, NextTx(log))
  {
    hide Steady, PriorOf, Growing, FactDatom, Companion, MaxTx, Tidy;
    var tx := NextTx(log);
    if n == 0 {
      StartsGrowing(log);
      assert log + Stamped([], tx) == log;
    } else {
      CallGrows(log, c, n - 1);
      var ds, f := DraftUpTo(log, c, n - 1), c.facts[n - 1];
      var cur := log + Stamped(ds, tx);
      var prior := PriorOf(c.mode, log, c.facts, n - 1, ds, c.ctx);
      var own := WithTx(FactDatom(f, c.ctx), tx);
      if f.op.Assert? && prior.Some? {
        var r := WithTx(Companion(prior.value, ValidFromOf(f, c.ctx.now), c.ctx.now), tx);
        StampedConcat(ds, [Companion(prior.value, ValidFromOf(f, c.ctx.now), c.ctx.now), FactDatom(f, c.ctx)], tx);
        assert log + Stamped(DraftUpTo(log, c, n), tx) == cur + [r, own];
        GrowsByPair(log, c, n - 1);
      } else {
        StampedConcat(ds, [FactDatom(f, c.ctx)], tx);
        assert log + Stamped(DraftUpTo(log, c, n), tx) == cur + [own];
        if f.op.Assert? {
          GrowsAlone(log, c, n - 1);
        } else {
          GrowsByRetract(log, c, n - 1);
        }
      }
    }
  }

  lemma {:induction false} StartsGrowing(log: seq<Datom>)
    requires Steady(log)
    ensures Growing(log, |log|, NextTx(log))
  {
    hide TopIndex, Steady;
  }

  lemma {:induction false} GrowsByRetract(log: seq<Datom>, c: Call, n: nat)
    requires Tidy(c) && n < |c.facts| && c.facts[n].op.Retract? && BuildUpTo(c.mode, log, c.facts, n, c.ctx).Built?
    requires Growing(log + Stamped(DraftUpTo(log, c, n), NextTx(log)), |log|, NextTx(log))
    ensures var tx := NextTx(log);
            Growing(log + Stamped(DraftUpTo(log, c, n), tx) + [WithTx(FactDatom(c.facts[n], c.ctx), tx)], |log|, tx)
  {
    hide Growing, BuildUpTo, MaxTx, Bare;
    var ds, tx := DraftUpTo(log, c, n), NextTx(log);
    var cur, r := log + Stamped(ds, tx), WithTx(FactDatom(c.facts[n], c.ctx), tx);
    forall k | |log| <= k < |cur| && cur[k].op.Assert? ensures !Names(r, cur[k]) {
      var d := ds[k - |log|];
      assert cur[k] == WithTx(d, tx) && d in ds;
      DraftAsserts(log, c, n, d);
      var j :| 0 <= j < n && c.facts[j].op.Assert? && d == FactDatom(c.facts[j], c.ctx);
      assert !Takes(c.facts[j], c.facts[n], c.ctx.now);
    }
    AddRetract(cur, |log|, tx, r);
  }

  lemma {:induction false} OwnPart(log: seq<Datom>, ds: seq<Datom>, tx: int, e: string, a: string, m: Option<nat>)
    requires m.None? ==> forall k :: 0 <= k < |ds| ==> !OfKey(ds[k], e, a)
    requires m.Some? ==> m.value < |ds| && OfKey(ds[m.value], e, a)
                         && forall k :: m.value < k < |ds| ==> !OfKey(ds[k], e, a)
    ensures m.None? ==> NoneOwn(log + Stamped(ds, tx), |log|, e, a)
    ensures m.Some? ==> LastOwn(log + Stamped(ds, tx), |log|, |log| + m.value, e, a)
  {
    var cur := log + Stamped(ds, tx);
    forall k | |log| <= k < |cur| ensures OfKey(cur[k], e, a) == OfKey(ds[k - |log|], e, a) {
      assert cur[k] == WithTx(ds[k - |log|], tx);
    }
  }

  lemma {:induction false} GrowsAlone(log: seq<Datom>, c: Call, n: nat)
    requires Tidy(c) && n < |c.facts| && c.facts[n].op.Assert? && BuildUpTo(c.mode, log, c.facts, n, c.ctx).Built?
    requires PriorOf(c.mode, log, c.facts, n, DraftUpTo(log, c, n), c.ctx).None?
    requires Growing(log + Stamped(DraftUpTo(log, c, n), NextTx(log)), |log|, NextTx(log))
    ensures var tx := NextTx(log);
            Growing(log + Stamped(DraftUpTo(log, c, n), tx) + [WithTx(FactDatom(c.facts[n], c.ctx), tx)], |log|, tx)
  {
    hide Growing, BuildUpTo, MaxTx, Bare, PriorOf;
    var ds, tx := DraftUpTo(log, c, n), NextTx(log);
    var cur, mine := log + Stamped(ds, tx), WithTx(FactDatom(c.facts[n], c.ctx), tx);
    var m := TidyPrior(log, c, n);
    OwnPart(log, ds, tx, mine.e, mine.a, m);
    AddAlone(cur, |log|, tx, mine);
  }

  lemma {:induction false} GrowsByPair(log: seq<Datom>, c: Call, n: nat)
    requires Tidy(c) && n < |c.facts| && c.facts[n].op.Assert?
    requires BuildUpTo(c.mode, log, c.facts, n + 1, c.ctx).Built?
    requires BuildUpTo(c.mode, log, c.facts, n, c.ctx).Built?
    requires PriorOf(c.mode, log, c.facts, n, DraftUpTo(log, c, n), c.ctx).Some?
    requires Growing(log + Stamped(DraftUpTo(log, c, n), NextTx(log)), |log|, NextTx(log))
    ensures var prior, f := PriorOf(c.mode, log, c.facts, n, DraftUpTo(log, c, n), c.ctx).value, c.facts[n];
            var r := WithTx(Companion(prior, ValidFromOf(f, c.ctx.now), c.ctx.now), NextTx(log));
            Growing(log + Stamped(DraftUpTo(log, c, n), NextTx(log)) + [r, WithTx(FactDatom(f, c.ctx), NextTx(log))],
                    |log|, NextTx(log))
  {
    hide Growing, MaxTx, Bare, PriorOf;
    var ds, tx, f := DraftUpTo(log, c, n), NextTx(log), c.facts[n];
    var cur, mine := log + Stamped(ds, tx), WithTx(FactDatom(f, c.ctx), tx);
    var prior := PriorOf(c.mode, log, c.facts, n, ds, c.ctx).value;
    var r := WithTx(Companion(prior, ValidFromOf(f, c.ctx.now), c.ctx.now), tx);
    var m := TidyPrior(log, c, n);
    FindPriorFound(log, f.e, f.a);
    OwnPart(log, ds, tx, mine.e, mine.a, m);
    AddPair(cur, |log|, tx, r, mine, if m.Some? then Some(|log| + m.value) else None);
  }

  /** So does the call as a whole, refused or not. */
  lemma {:induction false} CallKeepsSteady(log: seq<Datom>, c: Call)
    requires Steady(log) && Tidy(c)
    ensures Steady(LogAfterCall(log, c))
  {
    hide BuildUpTo, Steady, MaxTx, MarkAll, Tidy;
    var b := BuildAll(c.mode, log, c.facts, c.ctx);
    if b.Built? && b.draft.datoms != [] {
      CallGrows(log, c, |c.facts|);
      var appended := log + Stamped(b.draft.datoms, NextTx(log));
      MarkAllKeepsRest(appended, b.draft.invalidations, NextTx(log));
      SteadyIgnoresMarks(appended, LogAfterCall(log, c));
    }
  }

  /** Every run of unforced calls of open bare asserts and retracts leaves a steady log, at whatever
      valid_from the asserts are made and whatever was over-invalidated or refused on the way. */
  lemma {:induction false} RunsAreSteady(calls: seq<Call>)
    requires forall i :: 0 <= i < |calls| ==> Tidy(calls[i])
    ensures Steady(RunCalls([], calls))
  {
    hide Tidy, LogAfterCall;
    if calls != [] {
      RunsAreSteady(calls[..|calls| - 1]);
      CallKeepsSteady(RunCalls([], calls[..|calls| - 1]), calls[|calls| - 1]);
    }
  }

  /** The newest assert of the key is not closed, or the newest one still open carries the same value. */
  predicate NewestShows(log: seq<Datom>, e: string, a: string) {
    match TopIndex(log, e, a)
    case None => true
    case Some(i) => !Closed(log, log[i]) || (var w := Latest(log, log, e, a); w.Some? && w.value.v == log[i].v)
  }

  lemma {:induction false} KeyMirrorsIff(log: seq<Datom>, e: string, a: string)
    requires Steady(log)
    ensures (if a in StreamAll(log).Get(e) then Some(StreamAll(log).Get(e)[a]) else None) == Recomputed(log, e, a)
            <==> NewestShows(log, e, a)
  {
    hide TopIndex, Steady, EntityOf, StreamAll, Latest, Closed;
    CacheAgreesIff(log, e, a);
    assert StreamAll(log).Cell(e, a).0 == if a in StreamAll(log).Get(e) then Some(StreamAll(log).Get(e)[a]) else None;
  }

  lemma {:induction false} SameMapIff(m: map<string, Value>, n: map<string, Value>)
    ensures m == n <==>
            forall a :: (if a in m then Some(m[a]) else None) == if a in n then Some(n[a]) else None
  {
    if forall a :: (if a in m then Some(m[a]) else None) == if a in n then Some(n[a]) else None {
      forall a ensures (a in m <==> a in n) && (a in m ==> m[a] == n[a]) {
        assert (if a in m then Some(m[a]) else None) == if a in n then Some(n[a]) else None;
      }
    }
  }

  /** After such a run the cache mirrors `entity` if and only if of every attribute the newest assert is not
      closed, or the newest one still open carries the same value. */
  lemma {:induction false} RunMirrorsIff(calls: seq<Call>, e: string)
    requires forall i :: 0 <= i < |calls| ==> Tidy(calls[i])
    ensures var log := RunCalls([], calls);
            StreamAll(log).Get(e) == EntityOf(log, e) <==> forall a :: NewestShows(log, e, a)
  {
    hide Steady, Tidy, EntityOf, StreamAll, NewestShows;
    RunsAreSteady(calls);
    var log := RunCalls([], calls);
    SameMapIff(StreamAll(log).Get(e), EntityOf(log, e));
    forall a
      ensures (if a in StreamAll(log).Get(e) then Some(StreamAll(log).Get(e)[a]) else None) == Recomputed(log, e, a)
              <==> NewestShows(log, e, a)
    {
      KeyMirrorsIff(log, e, a);
    }
  }

  /** A retract passed to either transactor: whatever the log had retracted before, cache and view agree on
      its key if and only if nothing closes the newest assert, or the newest one still open equals it. */
  lemma {:induction false} RetractCallAgreesIff(mode: Lookup, log: seq<Datom>, f: Fact, ctx: Ctx, i: nat)
    requires Steady(log) && f.op.Retract? && TopIndex(log, f.e, Bare(f.a)) == Some(i)
    ensures var after, a := LogAfter(mode, log, [f], ctx), Bare(f.a);
            var w := Latest(after, after, f.e, a);
            && Steady(after) && StreamAll(after).Cell(f.e, a).0 == Some(log[i].v)
            && (StreamAll(after).Cell(f.e, a).0 == Recomputed(after, f.e, a) <==>
                (!Closed(log, log[i]) && !Closes(FactDatom(f, ctx), log[i])) || (w.Some? && w.value.v == log[i].v))
  {
    hide TopIndex, Steady, EntityOf, StreamAll, Latest, Closed, Bare, MaxTx, LogAfter;
    RetractAppends(mode, log, f, ctx);
    var r := WithTx(FactDatom(f, ctx), NextTx(log));
    LaterRetractSteady(log, r);
    LaterRetractAgreesIff(log, r, i);
  }

  /** The mirroring fails without any retract of the caller's: the same open assert made twice, by whichever
      transactors, stays in the cache and leaves `entity`, for its companion closes both. */
  lemma {:induction false} RepeatedAssertIsLost(f: Fact, m1: Lookup, m2: Lookup, ctx: Ctx)
    requires f.op.Assert? && f.validTo.None? && f.validFrom.Some? && IsBare(f.a) && !ctx.force
    ensures var log := RunCalls([], [Call(m1, [f], ctx), Call(m2, [f], ctx)]);
            StreamAll(log).Cell(f.e, f.a).0 == Some(f.v) && f.a !in EntityOf(log, f.e)
  {
    hide TopIndex, Steady, EntityOf, StreamAll, Latest, Bare, MarkAll, BuildUpTo, LogAfter;
    var c1, c2 := Call(m1, [f], ctx), Call(m2, [f], ctx);
    var log1 := LogAfter(m1, [], [f], ctx);
    var log2 := LogAfter(m2, log1, [f], ctx);
    assert [c1, c2][..1] == [c1] && [c1][..0] == [];
    assert RunCalls([], [c1]) == log1;
    assert RunCalls([], [c1, c2]) == log2;
    var first := FirstOnly(m1, f, ctx);
    TwiceOpen(m2, log1, first, f, ctx);
    RunsAreSteady([c1, c2]);
    TopOfPair(log2, f.e, f.a);
    CacheAgreesIff(log2, f.e, f.a);
    EntityAt(log2, f.e, f.a);
    LatestIsMaximal(log2, log2, f.e, f.a);
    forall d | d in log2 && OfKey(d, f.e, f.a) ensures Closed(log2, d) {
      assert Closes(log2[1], d);
    }
  }

  lemma {:induction false} FirstOnly(mode: Lookup, f: Fact, ctx: Ctx) returns (d: Datom)
    requires f.op.Assert? && f.validTo.None? && IsBare(f.a)
    ensures LogAfter(mode, [], [f], ctx) == [d] && d == WithTx(FactDatom(f, ctx), NextTx([]))
  {
    hide Bare, MaxTx;
    assert FindPrior([], f.e, f.a).None?;
    AssertIsAccepted(mode, [], f, ctx);
    OneAssertDraft(mode, [], f, ctx);
    NothingMarked(mode, f, ctx);
    d := WithTx(FactDatom(f, ctx), NextTx([]));
    assert [] + Stamped([FactDatom(f, ctx)], NextTx([])) == [d];
  }

  lemma {:induction false} NothingMarked(mode: Lookup, f: Fact, ctx: Ctx)
    requires BuildAll(mode, [], [f], ctx).Built?
    ensures BuildAll(mode, [], [f], ctx).draft.invalidations == []
  {
    assert BuildUpTo(mode, [], [f], 0, ctx) == Built(Draft([], []));
  }

  /** The log a repeated open assert leaves: two asserts that its companion closes both. */
  lemma {:induction false} TwiceOpen(mode: Lookup, log: seq<Datom>, d: Datom, f: Fact, ctx: Ctx)
    requires f.op.Assert? && f.validTo.None? && f.validFrom.Some? && IsBare(f.a)
    requires log == [d] && d == WithTx(FactDatom(f, ctx), NextTx([]))
    ensures var after := LogAfter(mode, log, [f], ctx);
            && |after| == 3 && OfKey(after[0], f.e, f.a) && after[1].op.Retract? && OfKey(after[2], f.e, f.a)
            && after[0].v == after[2].v == f.v && Closes(after[1], after[0]) && Closes(after[1], after[2])
  {
    hide Bare, MaxTx, MarkAll, LogAfter;
    assert log[..0] == [] && FindPrior(log, f.e, f.a) == Some(d);
    AssertIsAcceptedLater(mode, log, f, ctx);
    OneAssertAppends(mode, log, f, ctx);
    var tx, c := NextTx(log), CompanionOf(log, f, ctx).value;
    var stamped := Appended(log, Some(WithTx(c, tx)), WithTx(FactDatom(f, ctx), tx));
    var after := LogAfter(mode, log, [f], ctx);
    SameFields(stamped, after, 0);
    SameFields(stamped, after, 1);
    SameFields(stamped, after, 2);
  }

  lemma {:induction false} AssertIsAcceptedLater(mode: Lookup, log: seq<Datom>, f: Fact, ctx: Ctx)
    requires f.op.Assert? && FindPrior(log, f.e, f.a).Some?
    requires FindPrior(log, f.e, f.a).value.validFrom <= ValidFromOf(f, ctx.now)
    ensures BuildAll(mode, log, [f], ctx).Built?
  {
    hide Bare, FindPrior;
    OneFactCallsAgree(f);
    SameSourcesAgree(log, [f], 1, ctx);
    assert log + [] == log;
    assert BuildUpTo(Scan, log, [f], 0, ctx) == Built(Draft([], []));
  }

  lemma {:induction false} TopOfPair(log: seq<Datom>, e: string, a: string)
    requires |log| == 3 && OfKey(log[0], e, a) && log[1].op.Retract? && OfKey(log[2], e, a)
    ensures TopIndex(log, e, a) == Some(0) || TopIndex(log, e, a) == Some(2)
  {
    hide TopIndex;
    assert TopIndex(log, e, a).Some?;
  }
}
