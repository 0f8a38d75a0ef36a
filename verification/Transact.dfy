/** The two transactors and `branch` (src/persistence/fact/db.py:196-468, 543-582, 1002-1018). */
module Transact {
  import opened Wrappers
  import opened Datoms
  import opened Views

  /** What a call fixes for all its facts: provenance, `force_retroactive`, one clock reading. */
  datatype Ctx = Ctx(base: string, force: bool, now: int)

  /** `Scan` is `transact`: each prior assert is found by scanning the log and the datoms built so far.
      `Index` is `transact_batch`: priors come from two dictionaries. */
  datatype Lookup = Scan | Index

  datatype Draft = Draft(datoms: seq<Datom>, invalidations: seq<int>)

  /** A finished draft, or the index of the fact refused with RetroactiveCorrectionError. */
  datatype Build = Built(draft: Draft) | Refused(index: nat)

  function ValidFromOf(f: Fact, now: int): int {
    f.validFrom.GetOr(now)
  }

  /** The assert or retract the fact itself contributes. */
  function FactDatom(f: Fact, ctx: Ctx): Datom {
    Datom(f.e, Bare(f.a), f.v, TX_PLACEHOLDER, ctx.now, ValidFromOf(f, ctx.now), f.validTo, f.op,
          Provenance(ctx.base, Some(f), None), None)
  }

  /** The companion retract that closes `prior` from the new effective date on. */
  function Companion(prior: Datom, vf: int, now: int): Datom {
    var retroactive := vf < prior.validFrom;
    Datom(prior.e, prior.a, prior.v, TX_PLACEHOLDER, now,
          if retroactive then vf else prior.validFrom,
          Some(if retroactive then prior.validFrom else vf),
          Retract, prior.prov.(supersededBy := Some(TX_PLACEHOLDER)), None)
  }

  /** One turn of either loop, given the prior assert its lookup found; None is a refusal. */
  function Step(d: Draft, f: Fact, prior: Option<Datom>, ctx: Ctx): Option<Draft> {
    var vf := ValidFromOf(f, ctx.now);
    if f.op.Assert? && prior.Some? then
      if vf < prior.value.validFrom && !ctx.force then None
      else Some(Draft(d.datoms + [Companion(prior.value, vf, ctx.now), FactDatom(f, ctx)],
                      d.invalidations + [prior.value.tx]))
    else
      Some(Draft(d.datoms + [FactDatom(f, ctx)], d.invalidations))
  }

  /** `_find_prior_assert`: the last live assert for exactly (e, a). */
  function FindPrior(ds: seq<Datom>, e: string, a: string): Option<Datom> {
    if ds == [] then None
    else
      var d := ds[|ds| - 1];
      if d.e == e && d.a == a && d.Live() then Some(d) else FindPrior(ds[..|ds| - 1], e, a)
  }

  /** The `in_batch_open` entry for the raw key after the first `n` facts. */
  function InBatchOpen(facts: seq<Fact>, n: nat, e: string, a: string, ctx: Ctx): Option<Datom>
    requires n <= |facts|
  {
    if n == 0 then None
    else
      var f := facts[n - 1];
      if f.op.Assert? && f.e == e && f.a == a then
        if f.validTo.None? then Some(FactDatom(f, ctx)) else None
      else InBatchOpen(facts, n - 1, e, a, ctx)
  }

  function PriorOf(mode: Lookup, log: seq<Datom>, facts: seq<Fact>, n: nat, datoms: seq<Datom>, ctx: Ctx): Option<Datom>
    requires n < |facts|
  {
    var f := facts[n];
    match mode
    case Scan => FindPrior(log + datoms, f.e, f.a)
    case Index =>
      match InBatchOpen(facts, n, f.e, f.a, ctx)
      case Some(d) => Some(d)
      case None => FindPrior(log, f.e, f.a)
  }

  /** The draft after the first `n` facts. */
  function BuildUpTo(mode: Lookup, log: seq<Datom>, facts: seq<Fact>, n: nat, ctx: Ctx): Build
    requires n <= |facts|
  {
    if n == 0 then Built(Draft([], []))
    else
      match BuildUpTo(mode, log, facts, n - 1, ctx)
      case Refused(i) => Refused(i)
      case Built(d) =>
        match Step(d, facts[n - 1], PriorOf(mode, log, facts, n - 1, d.datoms, ctx), ctx)
        case None => Refused(n - 1)
        case Some(d') => Built(d')
  }

  function BuildAll(mode: Lookup, log: seq<Datom>, facts: seq<Fact>, ctx: Ctx): Build {
    BuildUpTo(mode, log, facts, |facts|, ctx)
  }

  /** Atomic append, then the marks one by one. */
  function Commit(log: seq<Datom>, d: Draft): seq<Datom> {
    if d.datoms == [] then log
    else
      var tx := NextTx(log);
      MarkAll(log + Stamped(d.datoms, tx), d.invalidations, tx)
  }

  /** The log a call leaves behind. A refused call leaves it as it was. */
  function LogAfter(mode: Lookup, log: seq<Datom>, facts: seq<Fact>, ctx: Ctx): seq<Datom> {
    match BuildAll(mode, log, facts, ctx)
    case Refused(_) => log
    case Built(d) => Commit(log, d)
  }

  // ---- The fast transactor against the slow one ------------------------------

  /** Where the scan finds an in-call prior: the last open assert whose stored key is (e, a). */
  function ScanSource(facts: seq<Fact>, n: nat, e: string, a: string): (r: Option<nat>)
    requires n <= |facts|
    ensures r.Some? ==> r.value < n && facts[r.value].op.Assert? && facts[r.value].e == e
                        && Bare(facts[r.value].a) == a && facts[r.value].validTo.None?
  {
    if n == 0 then None
    else
      var f := facts[n - 1];
      if f.op.Assert? && f.e == e && Bare(f.a) == a && f.validTo.None? then Some(n - 1)
      else ScanSource(facts, n - 1, e, a)
  }

  /** Where the dictionary finds one: the last assert under the raw key, if that one is open. */
  function IndexSource(facts: seq<Fact>, n: nat, e: string, a: string): (r: Option<nat>)
    requires n <= |facts|
    ensures r.Some? ==> r.value < n && facts[r.value].op.Assert? && facts[r.value].e == e
                        && facts[r.value].a == a && facts[r.value].validTo.None?
  {
    if n == 0 then None
    else
      var f := facts[n - 1];
      if f.op.Assert? && f.e == e && f.a == a then
        if f.validTo.None? then Some(n - 1) else None
      else IndexSource(facts, n - 1, e, a)
  }

  function SourceOf(mode: Lookup, facts: seq<Fact>, n: nat, e: string, a: string): (r: Option<nat>)
    requires n <= |facts|
    ensures r.Some? ==> r.value < n && facts[r.value].op.Assert? && facts[r.value].e == e
                        && Bare(facts[r.value].a) == Bare(a) && facts[r.value].validTo.None?
  {
    match mode
    case Scan => ScanSource(facts, n, e, a)
    case Index => IndexSource(facts, n, e, a)
  }

  /** The prior a lookup finds for fact `k`, read off the call and the log alone. */
  function Found(mode: Lookup, log: seq<Datom>, facts: seq<Fact>, k: nat, ctx: Ctx): Option<Datom>
    requires k < |facts|
  {
    match SourceOf(mode, facts, k, facts[k].e, facts[k].a)
    case Some(j) => Some(FactDatom(facts[j], ctx))
    case None => FindPrior(log, facts[k].e, facts[k].a)
  }

  /** At fact `k` both lookups point at the same in-call fact. */
  predicate SameSourceAt(facts: seq<Fact>, k: nat)
    requires k < |facts|
  {
    facts[k].op.Assert? ==>
      ScanSource(facts, k, facts[k].e, facts[k].a) == IndexSource(facts, k, facts[k].e, facts[k].a)
  }

  predicate SameSources(facts: seq<Fact>) {
    forall k :: 0 <= k < |facts| ==> SameSourceAt(facts, k)
  }

  lemma {:induction false} FindPriorConcat(a: seq<Datom>, b: seq<Datom>, e: string, at: string)
    ensures FindPrior(a + b, e, at) ==
            if FindPrior(b, e, at).Some? then FindPrior(b, e, at) else FindPrior(a, e, at)
    decreases |b|
  {
    if b == [] {
      assert a + b == a;
    } else {
      assert (a + b)[..|a + b| - 1] == a + b[..|b| - 1];
      FindPriorConcat(a, b[..|b| - 1], e, at);
    }
  }

  lemma {:induction false} FindPriorFound(ds: seq<Datom>, e: string, a: string)
    ensures var r := FindPrior(ds, e, a);
      && (r.Some? ==> r.value in ds && r.value.e == e && r.value.a == a && r.value.Live())
      && (r.None? <==> forall d :: d in ds && d.e == e && d.a == a ==> !d.Live())
  {
    if ds != [] {
      FindPriorFound(ds[..|ds| - 1], e, a);
      assert ds == ds[..|ds| - 1] + [ds[|ds| - 1]];
    }
  }

  lemma {:induction false} FindPriorSnoc(ds: seq<Datom>, d: Datom, e: string, a: string)
    ensures FindPrior(ds + [d], e, a) == if d.e == e && d.a == a && d.Live() then Some(d) else FindPrior(ds, e, a)
  {
    assert (ds + [d])[..|ds|] == ds;
  }

  /** The live asserts a draft holds for (e, a) are its facts' own, whatever the lookup was. */
  lemma {:induction false} DraftPrior(mode: Lookup, log: seq<Datom>, facts: seq<Fact>, n: nat, ctx: Ctx, e: string,
                                      a: string)
    requires n <= |facts| && BuildUpTo(mode, log, facts, n, ctx).Built?
    ensures FindPrior(BuildUpTo(mode, log, facts, n, ctx).draft.datoms, e, a) ==
            match ScanSource(facts, n, e, a) case Some(j) => Some(FactDatom(facts[j], ctx)) case None => None
  {
    if n > 0 {
      DraftPrior(mode, log, facts, n - 1, ctx, e, a);
      var d := BuildUpTo(mode, log, facts, n - 1, ctx).draft;
      DraftStepPrior(d, facts[n - 1], PriorOf(mode, log, facts, n - 1, d.datoms, ctx), ctx, e, a);
    }
  }

  lemma {:induction false} DraftStepPrior(d: Draft, f: Fact, prior: Option<Datom>, ctx: Ctx, e: string, a: string)
    ensures Step(d, f, prior, ctx).Some? ==>
              FindPrior(Step(d, f, prior, ctx).value.datoms, e, a) ==
              if f.op.Assert? && f.e == e && Bare(f.a) == a && f.validTo.None? then Some(FactDatom(f, ctx))
              else FindPrior(d.datoms, e, a)
  {
    var mine := FactDatom(f, ctx);
    if f.op.Assert? && prior.Some? {
      var c := Companion(prior.value, ValidFromOf(f, ctx.now), ctx.now);
      StepAppends(d, f, prior, ctx);
      FindPriorSnoc(d.datoms + [c], mine, e, a);
      FindPriorSnoc(d.datoms, c, e, a);
    } else {
      FindPriorSnoc(d.datoms, mine, e, a);
    }
  }

  lemma {:induction false} InBatchIsIndexSource(facts: seq<Fact>, n: nat, e: string, a: string, ctx: Ctx)
    requires n <= |facts|
    ensures InBatchOpen(facts, n, e, a, ctx) ==
            match IndexSource(facts, n, e, a) case Some(j) => Some(FactDatom(facts[j], ctx)) case None => None
  {
    if n > 0 {
      InBatchIsIndexSource(facts, n - 1, e, a, ctx);
    }
  }

  /** Both lookups, in terms of the call's facts and the snapshot alone. */
  lemma {:induction false} PriorIsFound(mode: Lookup, log: seq<Datom>, facts: seq<Fact>, n: nat, d: Draft, ctx: Ctx)
    requires n < |facts| && BuildUpTo(mode, log, facts, n, ctx) == Built(d)
    ensures PriorOf(mode, log, facts, n, d.datoms, ctx) == Found(mode, log, facts, n, ctx)
  {
    var f := facts[n];
    FindPriorConcat(log, d.datoms, f.e, f.a);
    DraftPrior(mode, log, facts, n, ctx, f.e, f.a);
    InBatchIsIndexSource(facts, n, f.e, f.a, ctx);
  }

  lemma {:induction false} SameSourcesAgree(log: seq<Datom>, facts: seq<Fact>, n: nat, ctx: Ctx)
    requires n <= |facts|
    requires forall k :: 0 <= k < n ==> SameSourceAt(facts, k)
    ensures BuildUpTo(Scan, log, facts, n, ctx) == BuildUpTo(Index, log, facts, n, ctx)
  {
    hide FindPrior, InBatchOpen, ScanSource, IndexSource, PriorOf, Companion, FactDatom;
    if n > 0 {
      SameSourcesAgree(log, facts, n - 1, ctx);
      var b := BuildUpTo(Scan, log, facts, n - 1, ctx);
      if b.Built? {
        PriorIsFound(Scan, log, facts, n - 1, b.draft, ctx);
        PriorIsFound(Index, log, facts, n - 1, b.draft, ctx);
        assert SameSourceAt(facts, n - 1);
      }
    }
  }

  /** Later facts only extend a draft. */
  lemma {:induction false} DraftsGrow(mode: Lookup, log: seq<Datom>, facts: seq<Fact>, m: nat, n: nat, ctx: Ctx)
    requires m <= n <= |facts| && BuildUpTo(mode, log, facts, n, ctx).Built?
    ensures BuildUpTo(mode, log, facts, m, ctx).Built?
    ensures BuildUpTo(mode, log, facts, m, ctx).draft.datoms <= BuildUpTo(mode, log, facts, n, ctx).draft.datoms
    ensures BuildUpTo(mode, log, facts, m, ctx).draft.invalidations
            <= BuildUpTo(mode, log, facts, n, ctx).draft.invalidations
    decreases n
  {
    if m < n {
      DraftsGrow(mode, log, facts, m, n - 1, ctx);
    }
  }

  lemma {:induction false} SourcesDifferByFact(facts: seq<Fact>, n: nat, e: string, a: string)
    requires n <= |facts|
    requires ScanSource(facts, n, e, a).Some? && IndexSource(facts, n, e, a).Some?
    requires ScanSource(facts, n, e, a) != IndexSource(facts, n, e, a)
    ensures facts[ScanSource(facts, n, e, a).value].a != facts[IndexSource(facts, n, e, a).value].a
  {
    if n > 0 {
      var f := facts[n - 1];
      if !(f.op.Assert? && f.e == e && f.a == a) && ScanSource(facts, n, e, a) == ScanSource(facts, n - 1, e, a) {
        SourcesDifferByFact(facts, n - 1, e, a);
      }
    }
  }

  /** A disagreement between the lookups shows in the draft the moment it happens. */
  lemma {:induction false} MismatchShows(log: seq<Datom>, facts: seq<Fact>, k: nat, d: Draft, ctx: Ctx)
    requires WellFormed(log) && k < |facts| && !SameSourceAt(facts, k)
    requires BuildUpTo(Scan, log, facts, k, ctx) == BuildUpTo(Index, log, facts, k, ctx) == Built(d)
    ensures var s := Step(d, facts[k], PriorOf(Scan, log, facts, k, d.datoms, ctx), ctx);
            var x := Step(d, facts[k], PriorOf(Index, log, facts, k, d.datoms, ctx), ctx);
            s.Some? && x.Some? ==>
              || (|d.datoms| < |s.value.datoms| && |d.datoms| < |x.value.datoms|
                  && s.value.datoms[|d.datoms|] != x.value.datoms[|d.datoms|])
              || (|d.invalidations| < |s.value.invalidations| && |d.invalidations| < |x.value.invalidations|
                  && s.value.invalidations[|d.invalidations|] != x.value.invalidations[|d.invalidations|])
  {
    var f := facts[k];
    PriorIsFound(Scan, log, facts, k, d, ctx);
    PriorIsFound(Index, log, facts, k, d, ctx);
    FindPriorFound(log, f.e, f.a);
    var sj, xj := ScanSource(facts, k, f.e, f.a), IndexSource(facts, k, f.e, f.a);
    if sj.Some? && xj.Some? {
      SourcesDifferByFact(facts, k, f.e, f.a);
    }
  }

  /** `transact_batch` builds the very draft `transact` builds, its list of invalidations included, if
      and only if no assert of the call has its in-call prior hidden from one of the two lookups.
      The condition reads the fact list alone. */
  lemma {:induction false} SameDraftIff(log: seq<Datom>, facts: seq<Fact>, ctx: Ctx)
    requires WellFormed(log)
    requires BuildAll(Scan, log, facts, ctx).Built?
    ensures BuildAll(Index, log, facts, ctx) == BuildAll(Scan, log, facts, ctx) <==> SameSources(facts)
  {
    if SameSources(facts) {
      SameSourcesAgree(log, facts, |facts|, ctx);
    } else if BuildAll(Index, log, facts, ctx) == BuildAll(Scan, log, facts, ctx) {
      var k := FirstMismatch(facts, |facts|);
      SameSourcesAgree(log, facts, k, ctx);
      DraftsGrow(Scan, log, facts, k, |facts|, ctx);
      DraftsGrow(Scan, log, facts, k + 1, |facts|, ctx);
      DraftsGrow(Index, log, facts, k + 1, |facts|, ctx);
      MismatchShows(log, facts, k, BuildUpTo(Scan, log, facts, k, ctx).draft, ctx);
      assert false;
    }
  }

  ghost function FirstMismatch(facts: seq<Fact>, n: nat): (k: nat)
    requires n <= |facts| && exists j :: 0 <= j < n && !SameSourceAt(facts, j)
    ensures k < n && !SameSourceAt(facts, k) && forall j :: 0 <= j < k ==> SameSourceAt(facts, j)
  {
    if exists j :: 0 <= j < n - 1 && !SameSourceAt(facts, j) then FirstMismatch(facts, n - 1) else n - 1
  }

  /** Refusals too: where the sources agree both refuse the same fact, and the log is untouched. */
  lemma {:induction false} BatchRefinesTransact(log: seq<Datom>, facts: seq<Fact>, ctx: Ctx)
    requires SameSources(facts)
    ensures BuildAll(Index, log, facts, ctx) == BuildAll(Scan, log, facts, ctx)
    ensures LogAfter(Index, log, facts, ctx) == LogAfter(Scan, log, facts, ctx)
    ensures BuildAll(Scan, log, facts, ctx).Refused? ==> LogAfter(Index, log, facts, ctx) == log
  {
    SameSourcesAgree(log, facts, |facts|, ctx);
  }

  /** Open asserts under bare attributes always meet the condition. */
  lemma {:induction false} OpenBareSources(facts: seq<Fact>, n: nat, e: string, a: string)
    requires n <= |facts|
    requires forall k :: 0 <= k < n && facts[k].op.Assert? ==> facts[k].validTo.None? && IsBare(facts[k].a)
    ensures ScanSource(facts, n, e, a) == IndexSource(facts, n, e, a)
  {
    if n > 0 {
      OpenBareSources(facts, n - 1, e, a);
    }
  }

  lemma {:induction false} OpenBareCallsAgree(facts: seq<Fact>)
    requires forall k :: 0 <= k < |facts| && facts[k].op.Assert? ==> facts[k].validTo.None? && IsBare(facts[k].a)
    ensures SameSources(facts)
  {
    forall k | 0 <= k < |facts| ensures SameSourceAt(facts, k) {
      OpenBareSources(facts, k, facts[k].e, facts[k].a);
    }
  }

  /** Single-fact calls always agree, whatever the fact. */
  lemma {:induction false} OneFactCallsAgree(f: Fact)
    ensures SameSources([f])
  {
    assert ScanSource([f], 0, f.e, f.a) == IndexSource([f], 0, f.e, f.a);
  }

  /** An open assert, a closed-interval one and a third for the same key: `transact` closes the
      open one twice, `transact_batch` forgets it. */
  lemma {:induction false} ClosedIntervalSplitsThem()
    ensures var x := Hashable("1");
            var facts := [Fact("e", "a", x, Some(1), None, Assert),
                          Fact("e", "a", x, Some(2), Some(3), Assert),
                          Fact("e", "a", x, Some(4), None, Assert)];
            LogAfter(Index, [], facts, Ctx("", false, 0)) != LogAfter(Scan, [], facts, Ctx("", false, 0))
  {
    var x := Hashable("1");
    var facts := [Fact("e", "a", x, Some(1), None, Assert),
                  Fact("e", "a", x, Some(2), Some(3), Assert),
                  Fact("e", "a", x, Some(4), None, Assert)];
    var ctx := Ctx("", false, 0);
    CountDatoms(Scan, facts, ctx);
    CountDatoms(Index, facts, ctx);
  }

  /** Helper: both drafts of three asserts for one key, step by step. */
  lemma {:induction false} CountDatoms(mode: Lookup, facts: seq<Fact>, ctx: Ctx)
    requires |facts| == 3 && !ctx.force
    requires forall k :: 0 <= k < 3 ==>
               facts[k].op.Assert? && facts[k].e == "e" && facts[k].a == "a" && facts[k].validFrom.Some?
    requires facts[0].validFrom.value < facts[1].validFrom.value < facts[2].validFrom.value
    requires facts[0].validTo.None? && facts[1].validTo.Some? && facts[2].validTo.None?
    ensures |LogAfter(mode, [], facts, ctx)| == if mode.Scan? then 5 else 4
  {
    assert BuildUpTo(mode, [], facts, 0, ctx) == Built(Draft([], []));
    var f0 := FactDatom(facts[0], ctx);
    assert PriorOf(mode, [], facts, 0, [], ctx).None?;
    assert BuildUpTo(mode, [], facts, 1, ctx) == Built(Draft([f0], []));
    assert [] + [f0] == [f0];
    assert PriorOf(mode, [], facts, 1, [f0], ctx) == Some(f0);
    var c1, f1 := Companion(f0, facts[1].validFrom.value, ctx.now), FactDatom(facts[1], ctx);
    assert BuildUpTo(mode, [], facts, 2, ctx) == Built(Draft([f0] + [c1, f1], [] + [f0.tx]));
    var d2 := [f0] + [c1, f1];
    assert [] + d2 == d2;
    assert d2[..2] == [f0, c1] && d2[..2][..1] == [f0];
    assert FindPrior(d2, "e", "a") == FindPrior(d2[..2], "e", "a") == FindPrior(d2[..2][..1], "e", "a") == Some(f0);
    assert InBatchOpen(facts, 2, "e", "a", ctx) == None;
  }

  /** A leading colon hides an earlier fact of the same call from `transact` only: two open asserts of
      one key leave two datoms there and three in `transact_batch`. */
  lemma {:induction false} ColonSplitsThem(log: seq<Datom>, f1: Fact, f2: Fact, ctx: Ctx)
    requires WellFormed(log) && f1.op.Assert? && f2.op.Assert? && f1.validTo.None?
    requires !IsBare(f1.a) && f1.a == f2.a && f1.e == f2.e
    requires ctx.force || ValidFromOf(f1, ctx.now) <= ValidFromOf(f2, ctx.now)
    ensures BuildAll(Scan, log, [f1, f2], ctx).Built? && BuildAll(Index, log, [f1, f2], ctx).Built?
    ensures |LogAfter(Scan, log, [f1, f2], ctx)| == |log| + 2
    ensures |LogAfter(Index, log, [f1, f2], ctx)| == |log| + 3
  {
    hide FindPrior, Bare, MarkAll, Companion;
    var facts := [f1, f2];
    var d1, d2 := FactDatom(f1, ctx), FactDatom(f2, ctx);
    FindPriorFound(log, f1.e, f1.a);
    NotYetAsserted(log, f1, ctx);
    assert log + [] == log && [] + [d1] == [d1];
    assert BuildUpTo(Scan, log, facts, 0, ctx) == BuildUpTo(Index, log, facts, 0, ctx) == Built(Draft([], []));
    assert BuildUpTo(Scan, log, facts, 1, ctx) == BuildUpTo(Index, log, facts, 1, ctx) == Built(Draft([d1], []));
    assert InBatchOpen(facts, 1, f2.e, f2.a, ctx) == Some(d1);
  }

  lemma {:induction false} NotYetAsserted(log: seq<Datom>, f: Fact, ctx: Ctx)
    requires FindPrior(log, f.e, f.a).None? && !IsBare(f.a)
    ensures FindPrior(log + [FactDatom(f, ctx)], f.e, f.a).None?
  {
    FindPriorSnoc(log, FactDatom(f, ctx), f.e, f.a);
  }

  // ---- The transactors themselves ----------------------------------------------

  datatype Outcome = Done | RetroactiveCorrection(index: nat)

  function OutcomeOf(b: Build): Outcome {
    match b
    case Built(_) => Done
    case Refused(i) => RetroactiveCorrection(i)
  }

  method FindPriorAssert(ds: seq<Datom>, e: string, a: string) returns (r: Option<Datom>)
    ensures r == FindPrior(ds, e, a)
  {
    assert ds[..|ds|] == ds;
    for i := |ds| downto 0
      invariant FindPrior(ds, e, a) == FindPrior(ds[..i], e, a)
    {
      var d := ds[i];
      assert ds[..i + 1][..i] == ds[..i];
      if d.e != e || d.a != a {
        continue;
      }
      if !d.op.Assert? {
        continue;
      }
      if d.invalidatedBy.Some? {
        continue;
      }
      if d.validTo.Some? {
        continue;
      }
      return Some(d);
    }
    r := None;
  }

  /** One pass, newest to oldest; the first hit per key stays. */
  method IndexPriors(log: seq<Datom>) returns (priors: map<(string, string), Datom>)
    ensures forall e, a :: (if (e, a) in priors then Some(priors[(e, a)]) else None) == FindPrior(log, e, a)
  {
    priors := map[];
    assert log[..|log|] == log;
    for i := |log| downto 0
      invariant forall e, a :: FindPrior(log, e, a) ==
                  if (e, a) in priors then Some(priors[(e, a)]) else FindPrior(log[..i], e, a)
    {
      var d := log[i];
      assert log[..i + 1][..i] == log[..i];
      if !d.op.Assert? || d.invalidatedBy.Some? || d.validTo.Some? {
        continue;
      }
      if (d.e, d.a) !in priors {
        priors := priors[(d.e, d.a) := d];
      }
    }
    assert log[..0] == [];
  }

  class DB {
    const store: InMemoryStore

    constructor (store: InMemoryStore)
      ensures this.store == store
    {
      this.store := store;
    }

    /** Appends the draft, then marks its invalidations one after the other. */
    method CommitDraft(datoms: seq<Datom>, invalidations: seq<int>)
      modifies store
      ensures store.log == Commit(old(store.log), Draft(datoms, invalidations))
    {
      var stored := store.AllocateAndAppend(datoms);
      if stored != [] {
        var tx := stored[0].tx;
        for i := 0 to |invalidations|
          invariant MarkAll(store.log, invalidations[i..], tx) == Commit(old(store.log), Draft(datoms, invalidations))
        {
          store.MarkInvalidated(invalidations[i], tx);
          assert invalidations[i..][1..] == invalidations[i + 1..];
        }
      }
    }

    /** `transact`. */
    method Transact(facts: seq<Fact>, base: string, force: bool, now: int) returns (r: Outcome)
      modifies store
      ensures store.log == LogAfter(Scan, old(store.log), facts, Ctx(base, force, now))
      ensures r == OutcomeOf(BuildAll(Scan, old(store.log), facts, Ctx(base, force, now)))
    {
      hide FindPrior, Bare, MarkAll, Companion;
      if facts == [] {
        return Done;
      }
      ghost var ctx := Ctx(base, force, now);
      var newDatoms: seq<Datom> := [];
      var invalidations: seq<int> := [];
      var current := store.log;
      for i := 0 to |facts|
        invariant store.log == old(store.log) == current
        invariant BuildUpTo(Scan, current, facts, i, ctx) == Built(Draft(newDatoms, invalidations))
      {
        var f := facts[i];
        var vf := f.validFrom.GetOr(now);
        if f.op.Assert? {
          var prior := FindPriorAssert(current + newDatoms, f.e, f.a);
          if prior.Some? {
            if vf < prior.value.validFrom && !force {
              RefusalPersists(Scan, current, facts, i + 1, |facts|, ctx);
              return RetroactiveCorrection(i);
            }
            newDatoms := newDatoms + [Companion(prior.value, vf, now)];
            invalidations := invalidations + [prior.value.tx];
          }
        }
        newDatoms := newDatoms + [Datom(f.e, Bare(f.a), f.v, TX_PLACEHOLDER, now, vf, f.validTo, f.op,
                                        Provenance(base, Some(f), None), None)];
        StepAppends(BuildUpTo(Scan, current, facts, i, ctx).draft, f,
                    PriorOf(Scan, current, facts, i, BuildUpTo(Scan, current, facts, i, ctx).draft.datoms, ctx), ctx);
      }
      CommitDraft(newDatoms, invalidations);
      r := Done;
    }

    /** `transact_batch`. */
    method TransactBatch(facts: seq<Fact>, base: string, force: bool, now: int) returns (r: Outcome)
      modifies store
      ensures store.log == LogAfter(Index, old(store.log), facts, Ctx(base, force, now))
      ensures r == OutcomeOf(BuildAll(Index, old(store.log), facts, Ctx(base, force, now)))
    {
      hide FindPrior, Bare, MarkAll, Companion;
      if facts == [] {
        return Done;
      }
      ghost var ctx := Ctx(base, force, now);
      var newDatoms: seq<Datom> := [];
      var invalidations: seq<int> := [];
      var current := store.log;
      var priorIndex := IndexPriors(current);
      var inBatchOpen: map<(string, string), Datom> := map[];
      for i := 0 to |facts|
        invariant store.log == old(store.log) == current
        invariant forall e, a :: (if (e, a) in inBatchOpen then Some(inBatchOpen[(e, a)]) else None)
                                 == InBatchOpen(facts, i, e, a, ctx)
        invariant BuildUpTo(Index, current, facts, i, ctx) == Built(Draft(newDatoms, invalidations))
      {
        var f := facts[i];
        var vf := f.validFrom.GetOr(now);
        if f.op.Assert? {
          var key := (f.e, f.a);
          var prior := if key in inBatchOpen then Some(inBatchOpen[key])
                       else if key in priorIndex then Some(priorIndex[key]) else None;
          assert prior == PriorOf(Index, current, facts, i, newDatoms, ctx);
          if prior.Some? {
            if vf < prior.value.validFrom && !force {
              RefusalPersists(Index, current, facts, i + 1, |facts|, ctx);
              return RetroactiveCorrection(i);
            }
            newDatoms := newDatoms + [Companion(prior.value, vf, now)];
            invalidations := invalidations + [prior.value.tx];
            inBatchOpen := inBatchOpen - {key};
          }
        }
        newDatoms := newDatoms + [Datom(f.e, Bare(f.a), f.v, TX_PLACEHOLDER, now, vf, f.validTo, f.op,
                                        Provenance(base, Some(f), None), None)];
        if f.op.Assert? && f.validTo.None? {
          inBatchOpen := inBatchOpen[(f.e, f.a) := newDatoms[|newDatoms| - 1]];
        }
        StepAppends(BuildUpTo(Index, current, facts, i, ctx).draft, f,
                    PriorOf(Index, current, facts, i, BuildUpTo(Index, current, facts, i, ctx).draft.datoms, ctx), ctx);
      }
      CommitDraft(newDatoms, invalidations);
      r := Done;
    }

    /** `branch`: a store of its own, seeded from the snapshot at `t`. */
    method Branch(t: int, assertions: seq<Fact>, base: string, now: int) returns (b: DB, r: Outcome)
      ensures fresh(b) && fresh(b.store)
      ensures b.store.log == LogAfter(Scan, AsOfOf(store.log, t), assertions, Ctx(base, false, now))
      ensures r.Done? <==> BuildAll(Scan, AsOfOf(store.log, t), assertions, Ctx(base, false, now)).Built?
    {
      var seed: seq<Datom> := [];
      for i := 0 to |store.log|
        invariant seed == AsOfOf(store.log[..i], t)
      {
        assert store.log[..i + 1][..i] == store.log[..i];
        if store.log[i].txTime <= t {
          seed := seed + [store.log[i]];
        }
      }
      assert store.log[..|store.log|] == store.log;
      var branched := new InMemoryStore();
      branched.Append(seed);
      assert branched.log == seed;
      b := new DB(branched);
      r := b.Transact(assertions, base, false, now);
    }
  }

  lemma {:induction false} StepAppends(d: Draft, f: Fact, prior: Option<Datom>, ctx: Ctx)
    ensures f.op.Assert? && prior.Some? ==>
              d.datoms + [Companion(prior.value, ValidFromOf(f, ctx.now), ctx.now), FactDatom(f, ctx)]
              == d.datoms + [Companion(prior.value, ValidFromOf(f, ctx.now), ctx.now)] + [FactDatom(f, ctx)]
  {}

  lemma {:induction false} RefusalPersists(mode: Lookup, log: seq<Datom>, facts: seq<Fact>, m: nat, n: nat, ctx: Ctx)
    requires m <= n <= |facts| && BuildUpTo(mode, log, facts, m, ctx).Refused?
    ensures BuildUpTo(mode, log, facts, n, ctx) == BuildUpTo(mode, log, facts, m, ctx)
    decreases n
  {
    if m < n {
      RefusalPersists(mode, log, facts, m, n - 1, ctx);
    }
  }
}
