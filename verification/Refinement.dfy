/** When `transact_batch` leaves the outcome and the log that `transact` leaves (src/persistence/fact/db.py:196-468). */
module Refinement {
  import opened Wrappers
  import opened Datoms
  import opened Transact
  import opened Runs

  // ---- A draft, fact by fact -------------------------------------------------------

  /** The correction fact `k` would be refused for. */
  predicate RefusedAt(mode: Lookup, log: seq<Datom>, facts: seq<Fact>, k: nat, ctx: Ctx)
    requires k < |facts|
  {
    var prior := Found(mode, log, facts, k, ctx);
    facts[k].op.Assert? && prior.Some? && ValidFromOf(facts[k], ctx.now) < prior.value.validFrom && !ctx.force
  }

  function FirstRefusal(mode: Lookup, log: seq<Datom>, facts: seq<Fact>, n: nat, ctx: Ctx): Option<nat>
    requires n <= |facts|
  {
    if n == 0 then None
    else
      match FirstRefusal(mode, log, facts, n - 1, ctx)
      case Some(i) => Some(i)
      case None => if RefusedAt(mode, log, facts, n - 1, ctx) then Some(n - 1) else None
  }

  /** The companion fact `k` is preceded by. */
  function CompanionAt(mode: Lookup, log: seq<Datom>, facts: seq<Fact>, k: nat, ctx: Ctx): Option<Datom>
    requires k < |facts|
  {
    var prior := Found(mode, log, facts, k, ctx);
    if facts[k].op.Assert? && prior.Some? then Some(Companion(prior.value, ValidFromOf(facts[k], ctx.now), ctx.now))
    else None
  }

  /** One of the first `n` facts supersedes a datom of transaction `x`. */
  predicate Overwrites(mode: Lookup, log: seq<Datom>, facts: seq<Fact>, n: nat, ctx: Ctx, x: int)
    requires n <= |facts|
  {
    exists k :: 0 <= k < n && facts[k].op.Assert? && Found(mode, log, facts, k, ctx).Some?
                && Found(mode, log, facts, k, ctx).value.tx == x
  }

  /** A step, in these terms. */
  lemma {:induction false} BuildStep(mode: Lookup, log: seq<Datom>, facts: seq<Fact>, n: nat, ctx: Ctx)
    requires n < |facts| && BuildUpTo(mode, log, facts, n, ctx).Built?
    ensures var d, c := BuildUpTo(mode, log, facts, n, ctx).draft, CompanionAt(mode, log, facts, n, ctx);
            BuildUpTo(mode, log, facts, n + 1, ctx) ==
            if RefusedAt(mode, log, facts, n, ctx) then Refused(n)
            else Built(Draft(Appended(d.datoms, c, FactDatom(facts[n], ctx)),
                             d.invalidations + if c.Some? then [Found(mode, log, facts, n, ctx).value.tx] else []))
  {
    hide PriorOf, Found, Companion, FactDatom;
    PriorIsFound(mode, log, facts, n, BuildUpTo(mode, log, facts, n, ctx).draft, ctx);
  }

  lemma {:induction false} RefusalIsFirst(mode: Lookup, log: seq<Datom>, facts: seq<Fact>, n: nat, ctx: Ctx)
    requires n <= |facts|
    ensures match FirstRefusal(mode, log, facts, n, ctx)
            case Some(i) => BuildUpTo(mode, log, facts, n, ctx) == Refused(i)
            case None => BuildUpTo(mode, log, facts, n, ctx).Built?
  {
    hide RefusedAt, CompanionAt, PriorOf, Step;
    if n > 0 {
      RefusalIsFirst(mode, log, facts, n - 1, ctx);
      if BuildUpTo(mode, log, facts, n - 1, ctx).Built? {
        BuildStep(mode, log, facts, n - 1, ctx);
      }
    }
  }

  /** The invalidations of a draft are the transactions its facts supersede a datom of. */
  lemma {:induction false} InvalidationsAre(mode: Lookup, log: seq<Datom>, facts: seq<Fact>, n: nat, ctx: Ctx, x: int)
    requires n <= |facts| && BuildUpTo(mode, log, facts, n, ctx).Built?
    ensures x in BuildUpTo(mode, log, facts, n, ctx).draft.invalidations <==> Overwrites(mode, log, facts, n, ctx, x)
  {
    hide Found, Appended, PriorOf, Step, RefusedAt;
    if n > 0 {
      InvalidationsAre(mode, log, facts, n - 1, ctx, x);
      BuildStep(mode, log, facts, n - 1, ctx);
    }
  }

  /** Transaction ids of the draft's priors: the placeholder, or one in the log. */
  lemma {:induction false} FoundTx(mode: Lookup, log: seq<Datom>, facts: seq<Fact>, k: nat, ctx: Ctx)
    requires k < |facts| && Found(mode, log, facts, k, ctx).Some?
    ensures var p := Found(mode, log, facts, k, ctx).value;
            && p.Live() && p.e == facts[k].e
            && (p.tx == TX_PLACEHOLDER || (p in log && p.a == facts[k].a && p.tx <= MaxTx(log)))
  {
    hide MaxTx, Bare;
    FindPriorFound(log, facts[k].e, facts[k].a);
  }

  lemma {:induction false} InvalidationsAreOld(mode: Lookup, log: seq<Datom>, facts: seq<Fact>, n: nat, ctx: Ctx)
    requires n <= |facts| && BuildUpTo(mode, log, facts, n, ctx).Built?
    ensures forall x :: x in BuildUpTo(mode, log, facts, n, ctx).draft.invalidations ==>
             x == TX_PLACEHOLDER || x <= MaxTx(log)
  {
    hide Found, BuildUpTo, MaxTx;
    forall x | x in BuildUpTo(mode, log, facts, n, ctx).draft.invalidations
      ensures x == TX_PLACEHOLDER || x <= MaxTx(log)
    {
      InvalidationsAre(mode, log, facts, n, ctx, x);
      var k :| 0 <= k < n && facts[k].op.Assert? && Found(mode, log, facts, k, ctx).Some?
               && Found(mode, log, facts, k, ctx).value.tx == x;
      FoundTx(mode, log, facts, k, ctx);
    }
  }

  lemma {:induction false} DraftNonEmpty(mode: Lookup, log: seq<Datom>, facts: seq<Fact>, n: nat, ctx: Ctx)
    requires n <= |facts| && BuildUpTo(mode, log, facts, n, ctx).Built?
    ensures n > 0 ==> BuildUpTo(mode, log, facts, n, ctx).draft.datoms != []
    ensures n == 0 ==> BuildUpTo(mode, log, facts, n, ctx).draft == Draft([], [])
  {
    hide PriorOf, FactDatom, Companion;
  }

  // ---- Drafts that are told apart ----------------------------------------------------

  /** What stamping cannot confuse: unstamped, a companion (marked by the placeholder) or a fact's own. */
  predicate Unstamped(d: Datom) {
    d.tx == TX_PLACEHOLDER && (d.prov.supersededBy == None || d.prov.supersededBy == Some(TX_PLACEHOLDER))
    && d.invalidatedBy.None?
  }

  lemma {:induction false} DraftUnstamped(mode: Lookup, log: seq<Datom>, facts: seq<Fact>, n: nat, ctx: Ctx)
    requires n <= |facts| && BuildUpTo(mode, log, facts, n, ctx).Built?
    ensures var ds := BuildUpTo(mode, log, facts, n, ctx).draft.datoms;
            && (forall d :: d in ds ==> Unstamped(d))
            && (n > 0 ==> ds != [] && ds[|ds| - 1].prov.supersededBy.None?)
  {
    hide PriorOf;
    if n > 0 {
      DraftUnstamped(mode, log, facts, n - 1, ctx);
    }
  }

  /** A transactor and the log it reads. */
  datatype Reader = Reader(mode: Lookup, log: seq<Datom>)

  /** Two drafts of one call hold the same datoms exactly when fact by fact they hold the same companion. */
  lemma {:induction false} SameDatomsIff(r: Reader, q: Reader, facts: seq<Fact>, n: nat, ctx: Ctx)
    requires n <= |facts|
    requires BuildUpTo(r.mode, r.log, facts, n, ctx).Built? && BuildUpTo(q.mode, q.log, facts, n, ctx).Built?
    ensures BuildUpTo(r.mode, r.log, facts, n, ctx).draft.datoms == BuildUpTo(q.mode, q.log, facts, n, ctx).draft.datoms
            <==> forall k :: 0 <= k < n ==>
                   CompanionAt(r.mode, r.log, facts, k, ctx) == CompanionAt(q.mode, q.log, facts, k, ctx)
  {
    hide PriorOf, Step, CompanionAt, RefusedAt, FactDatom, Appended;
    if n > 0 {
      var m := n - 1;
      SameDatomsIff(r, q, facts, m, ctx);
      BuildStep(r.mode, r.log, facts, m, ctx);
      BuildStep(q.mode, q.log, facts, m, ctx);
      DraftUnstamped(r.mode, r.log, facts, m, ctx);
      DraftUnstamped(q.mode, q.log, facts, m, ctx);
      CompanionsName(r.mode, r.log, facts, m, ctx);
      CompanionsName(q.mode, q.log, facts, m, ctx);
      DraftNonEmpty(r.mode, r.log, facts, m, ctx);
      DraftNonEmpty(q.mode, q.log, facts, m, ctx);
      SameTailIff(BuildUpTo(r.mode, r.log, facts, m, ctx).draft.datoms, CompanionAt(r.mode, r.log, facts, m, ctx),
                  BuildUpTo(q.mode, q.log, facts, m, ctx).draft.datoms, CompanionAt(q.mode, q.log, facts, m, ctx),
                  FactDatom(facts[m], ctx));
    }
  }

  /** And the same draft exactly when the priors those companions close are of the same transactions too. */
  lemma {:induction false} SameDraftsIff(r: Reader, q: Reader, facts: seq<Fact>, n: nat, ctx: Ctx)
    requires n <= |facts|
    requires BuildUpTo(r.mode, r.log, facts, n, ctx).Built? && BuildUpTo(q.mode, q.log, facts, n, ctx).Built?
    ensures BuildUpTo(r.mode, r.log, facts, n, ctx) == BuildUpTo(q.mode, q.log, facts, n, ctx) <==>
            forall k :: 0 <= k < n ==> SameMoveAt(r, q, facts, k, ctx)
  {
    hide PriorOf, Step, CompanionAt, RefusedAt, FactDatom, Appended, Found;
    if n > 0 {
      var m := n - 1;
      SameDraftsIff(r, q, facts, m, ctx);
      SameDatomsIff(r, q, facts, m, ctx);
      SameDatomsIff(r, q, facts, n, ctx);
      BuildStep(r.mode, r.log, facts, m, ctx);
      BuildStep(q.mode, q.log, facts, m, ctx);
      CompanionsName(r.mode, r.log, facts, m, ctx);
      CompanionsName(q.mode, q.log, facts, m, ctx);
      var d, e := BuildUpTo(r.mode, r.log, facts, m, ctx).draft, BuildUpTo(q.mode, q.log, facts, m, ctx).draft;
      var c, f := CompanionAt(r.mode, r.log, facts, m, ctx), CompanionAt(q.mode, q.log, facts, m, ctx);
      if c.Some? && f.Some? {
        LastsEqual(d.invalidations, Found(r.mode, r.log, facts, m, ctx).value.tx,
                   e.invalidations, Found(q.mode, q.log, facts, m, ctx).value.tx);
      } else {
        assert d.invalidations + [] == d.invalidations && e.invalidations + [] == e.invalidations;
      }
      if BuildUpTo(r.mode, r.log, facts, n, ctx) == BuildUpTo(q.mode, q.log, facts, n, ctx) {
        assert c == f && d == e;
      } else if d == e {
        assert !SameMoveAt(r, q, facts, m, ctx);
      }
    }
  }

  /** Both readers call for the same companion before fact `k`, of a prior of the same transaction. */
  predicate SameMoveAt(r: Reader, q: Reader, facts: seq<Fact>, k: nat, ctx: Ctx)
    requires k < |facts|
  {
    var c := CompanionAt(r.mode, r.log, facts, k, ctx);
    && c == CompanionAt(q.mode, q.log, facts, k, ctx)
    && (c.Some? ==> Found(r.mode, r.log, facts, k, ctx).value.tx == Found(q.mode, q.log, facts, k, ctx).value.tx)
  }

  lemma {:induction false} LastsEqual(a: seq<int>, x: int, b: seq<int>, y: int)
    ensures a + [x] == b + [y] <==> a == b && x == y
  {
    if a + [x] == b + [y] {
      assert (a + [x])[|a|] == (b + [y])[|b|];
      assert a == (a + [x])[..|a|] && b == (b + [y])[..|b|];
    }
  }

  lemma {:induction false} CompanionsName(mode: Lookup, log: seq<Datom>, facts: seq<Fact>, k: nat, ctx: Ctx)
    requires k < |facts|
    ensures var c := CompanionAt(mode, log, facts, k, ctx);
            c.Some? ==> c.value.prov.supersededBy.Some? && Found(mode, log, facts, k, ctx).Some?
  {}

  lemma {:induction false} SameTailIff(s: seq<Datom>, cs: Option<Datom>, x: seq<Datom>, cx: Option<Datom>, f: Datom)
    requires s != [] ==> s[|s| - 1].prov.supersededBy.None?
    requires x != [] ==> x[|x| - 1].prov.supersededBy.None?
    requires cs.Some? ==> cs.value.prov.supersededBy.Some?
    requires cx.Some? ==> cx.value.prov.supersededBy.Some?
    requires s == [] <==> x == []
    ensures Appended(s, cs, f) == Appended(x, cx, f) <==> s == x && cs == cx
  {
    var a, b := Appended(s, cs, f), Appended(x, cx, f);
    if a == b {
      assert a[|a| - 1] == b[|b| - 1] == f;
      if |a| >= 2 {
        assert a[|a| - 2] == b[|b| - 2];
      }
      assert cs == cx;
      assert s == a[..|s|] && x == b[..|x|];
    }
  }

  /** A draft built from this log or an earlier one. */
  ghost predicate Committable(log: seq<Datom>, d: Draft) {
    && (d.datoms == [] ==> d.invalidations == [])
    && forall x :: x in d.invalidations ==> x == TX_PLACEHOLDER || x <= MaxTx(log)
  }

  /** What a commit leaves of the log and of the draft. */
  lemma {:induction false} CommitAt(log: seq<Datom>, d: Draft, i: nat)
    requires WellFormed(log) && Committable(log, d)
    requires i < |log| + |d.datoms|
    ensures |Commit(log, d)| == |log| + |d.datoms|
    ensures Commit(log, d)[i] ==
            if i >= |log| then WithTx(d.datoms[i - |log|], NextTx(log))
            else if log[i].invalidatedBy.None? && log[i].op.Assert? && log[i].tx in d.invalidations
            then log[i].(invalidatedBy := Some(NextTx(log))) else log[i]
  {
    hide MaxTx, MarkAll;
    if d.datoms != [] {
      MarkAllAt(log + Stamped(d.datoms, NextTx(log)), d.invalidations, NextTx(log), i);
      assert NextTx(log) != TX_PLACEHOLDER by {
        assert log != [] ==> log[0].tx >= 1;
      }
    }
  }

  /** The transactions marked are the same. */
  ghost predicate SameMarks(log: seq<Datom>, d: Draft, d': Draft) {
    forall i :: 0 <= i < |log| && log[i].invalidatedBy.None? && log[i].op.Assert? ==>
      (log[i].tx in d.invalidations <==> log[i].tx in d'.invalidations)
  }

  /** Committed drafts leave one log exactly when they hold the same datoms and mark the same
      transactions, in whatever order and however often. */
  lemma {:induction false} SameCommitIff(log: seq<Datom>, d: Draft, d': Draft)
    requires WellFormed(log) && Committable(log, d) && Committable(log, d')
    requires (forall c :: c in d.datoms ==> Unstamped(c)) && (forall c :: c in d'.datoms ==> Unstamped(c))
    ensures Commit(log, d) == Commit(log, d') <==> d.datoms == d'.datoms && SameMarks(log, d, d')
  {
    hide Commit, MaxTx;
    var a, b := Commit(log, d), Commit(log, d');
    CommitLength(log, d);
    CommitLength(log, d');
    if a == b {
      forall i | 0 <= i < |d.datoms| ensures d.datoms[i] == d'.datoms[i] {
        CommitAt(log, d, |log| + i);
        CommitAt(log, d', |log| + i);
        StampedApart(d.datoms[i], d'.datoms[i], NextTx(log));
      }
      forall i | 0 <= i < |log| && log[i].invalidatedBy.None? && log[i].op.Assert?
        ensures log[i].tx in d.invalidations <==> log[i].tx in d'.invalidations
      {
        CommitAt(log, d, i);
        CommitAt(log, d', i);
      }
    }
    if d.datoms == d'.datoms && SameMarks(log, d, d') {
      forall i | 0 <= i < |a| ensures a[i] == b[i] {
        CommitAt(log, d, i);
        CommitAt(log, d', i);
      }
    }
  }

  lemma {:induction false} CommitLength(log: seq<Datom>, d: Draft)
    ensures |Commit(log, d)| == |log| + |d.datoms|
  {}

  lemma {:induction false} StampedApart(c: Datom, d: Datom, tx: int)
    requires Unstamped(c) && Unstamped(d) && WithTx(c, tx) == WithTx(d, tx)
    ensures c == d
  {
    var c', d' := WithTx(c, tx), WithTx(d, tx);
    assert c'.e == d'.e && c'.a == d'.a && c'.v == d'.v && c'.txTime == d'.txTime && c'.validFrom == d'.validFrom;
    assert c'.validTo == d'.validTo && c'.op == d'.op && c'.prov == d'.prov;
    assert c'.prov.base == d'.prov.base && c'.prov.promptOf == d'.prov.promptOf
           && c'.prov.supersededBy == d'.prov.supersededBy;
    assert c.prov == d.prov;
  }

  // ---- The condition ----------------------------------------------------------------

  /** Both lookups refuse the same fact first; or neither refuses one, before every fact they call for
      the same companion, and they supersede datoms of the same transactions of the log. */
  ghost predicate SameEffect(log: seq<Datom>, facts: seq<Fact>, ctx: Ctx) {
    var refusal := FirstRefusal(Scan, log, facts, |facts|, ctx);
    && refusal == FirstRefusal(Index, log, facts, |facts|, ctx)
    && (refusal.None? ==>
          && (forall k :: 0 <= k < |facts| ==>
               CompanionAt(Scan, log, facts, k, ctx) == CompanionAt(Index, log, facts, k, ctx))
          && (forall i :: 0 <= i < |log| && log[i].invalidatedBy.None? && log[i].op.Assert? ==>
                (Overwrites(Scan, log, facts, |facts|, ctx, log[i].tx) <==>
                 Overwrites(Index, log, facts, |facts|, ctx, log[i].tx))))
  }

  /** The two transactors have the same outcome on a call and leave the same log if and only if the
      call has the same effect under both lookups: refused calls and forced ones included. */
  lemma {:induction false} BatchRefinesIff(log: seq<Datom>, facts: seq<Fact>, ctx: Ctx)
    requires WellFormed(log)
    ensures OutcomeOf(BuildAll(Index, log, facts, ctx)) == OutcomeOf(BuildAll(Scan, log, facts, ctx))
            && LogAfter(Index, log, facts, ctx) == LogAfter(Scan, log, facts, ctx)
            <==> SameEffect(log, facts, ctx)
  {
    hide BuildUpTo, CompanionAt, Overwrites, Commit;
    var n := |facts|;
    RefusalIsFirst(Scan, log, facts, n, ctx);
    RefusalIsFirst(Index, log, facts, n, ctx);
    var s, x := BuildAll(Scan, log, facts, ctx), BuildAll(Index, log, facts, ctx);
    if s.Built? && x.Built? {
      DraftCommittable(Scan, log, facts, ctx);
      DraftCommittable(Index, log, facts, ctx);
      DraftUnstamped(Scan, log, facts, n, ctx);
      DraftUnstamped(Index, log, facts, n, ctx);
      SameDatomsIff(Reader(Scan, log), Reader(Index, log), facts, n, ctx);
      SameCommitIff(log, s.draft, x.draft);
      forall i | 0 <= i < |log|
        ensures log[i].tx in s.draft.invalidations <==> Overwrites(Scan, log, facts, n, ctx, log[i].tx)
        ensures log[i].tx in x.draft.invalidations <==> Overwrites(Index, log, facts, n, ctx, log[i].tx)
      {
        InvalidationsAre(Scan, log, facts, n, ctx, log[i].tx);
        InvalidationsAre(Index, log, facts, n, ctx, log[i].tx);
      }
    }
  }

  lemma {:induction false} DraftCommittable(mode: Lookup, log: seq<Datom>, facts: seq<Fact>, ctx: Ctx)
    requires BuildAll(mode, log, facts, ctx).Built?
    ensures Committable(log, BuildAll(mode, log, facts, ctx).draft)
  {
    hide BuildUpTo, MaxTx;
    InvalidationsAreOld(mode, log, facts, |facts|, ctx);
    DraftNonEmpty(mode, log, facts, |facts|, ctx);
  }

  /** No datom of the log was made from an open assert of this call. */
  ghost predicate Fresh(log: seq<Datom>, facts: seq<Fact>) {
    forall d, f :: d in log && f in facts && f.op.Assert? && f.validTo.None? ==> d.prov.promptOf != Some(f)
  }

  /** For a call whose open asserts are new to the log, and which `transact` accepts, that is exactly the
      condition that no assert has its in-call prior hidden from one lookup. */
  lemma {:induction false} FreshCallsAgreeIff(log: seq<Datom>, facts: seq<Fact>, ctx: Ctx)
    requires WellFormed(log) && Fresh(log, facts) && BuildAll(Scan, log, facts, ctx).Built?
    ensures OutcomeOf(BuildAll(Index, log, facts, ctx)) == OutcomeOf(BuildAll(Scan, log, facts, ctx))
            && LogAfter(Index, log, facts, ctx) == LogAfter(Scan, log, facts, ctx)
            <==> SameSources(facts)
  {
    hide BuildUpTo, LogAfter, CompanionAt, Overwrites;
    if SameSources(facts) {
      BatchRefinesTransact(log, facts, ctx);
    } else {
      var k :| 0 <= k < |facts| && !SameSourceAt(facts, k);
      BatchRefinesIff(log, facts, ctx);
      RefusalIsFirst(Scan, log, facts, |facts|, ctx);
      MismatchIsSeen(log, facts, k, ctx);
    }
  }

  lemma {:induction false} MismatchIsSeen(log: seq<Datom>, facts: seq<Fact>, k: nat, ctx: Ctx)
    requires Fresh(log, facts) && k < |facts| && !SameSourceAt(facts, k)
    ensures CompanionAt(Scan, log, facts, k, ctx) != CompanionAt(Index, log, facts, k, ctx)
  {
    hide FindPrior, Bare;
    var f := facts[k];
    FindPriorFound(log, f.e, f.a);
    var s, x := ScanSource(facts, k, f.e, f.a), IndexSource(facts, k, f.e, f.a);
    var cs, cx := CompanionAt(Scan, log, facts, k, ctx), CompanionAt(Index, log, facts, k, ctx);
    if s.Some? && x.Some? {
      SourcesDifferByFact(facts, k, f.e, f.a);
    }
    if cs.Some? && cx.Some? {
      assert cs.value.prov.promptOf == Found(Scan, log, facts, k, ctx).value.prov.promptOf;
      assert cx.value.prov.promptOf == Found(Index, log, facts, k, ctx).value.prov.promptOf;
    }
  }

  /** Where the two lookups find their priors when a closed-interval assert stands between two open ones. */
  lemma {:induction false} ClosedBetween(facts: seq<Fact>)
    requires |facts| == 3 && forall k :: 0 <= k < 3 ==> facts[k].op.Assert? && facts[k].e == "e" && facts[k].a == "a"
    requires facts[0].validTo.None? && facts[1].validTo.Some?
    ensures ScanSource(facts, 0, "e", "a") == IndexSource(facts, 0, "e", "a") == None
    ensures ScanSource(facts, 1, "e", "a") == IndexSource(facts, 1, "e", "a") == Some(0)
    ensures ScanSource(facts, 2, "e", "a") == Some(0) && IndexSource(facts, 2, "e", "a") == None
  {
    assert IsBare("a") && Bare("a") == "a";
    assert ScanSource(facts, 0, "e", "a") == IndexSource(facts, 0, "e", "a") == None;
  }

  /** So on a log that holds the first of them already the lookups find it there or in the call. */
  lemma {:induction false} FoundBetween(log: seq<Datom>, facts: seq<Fact>, ctx: Ctx, d: Datom)
    requires |facts| == 3 && forall k :: 0 <= k < 3 ==> facts[k].op.Assert? && facts[k].e == "e" && facts[k].a == "a"
    requires facts[0].validTo.None? && facts[1].validTo.Some?
    requires log == [d] && d.Live() && d.e == "e" && d.a == "a"
    ensures Found(Scan, log, facts, 0, ctx) == Found(Index, log, facts, 0, ctx) == Some(d)
    ensures Found(Scan, log, facts, 1, ctx) == Found(Index, log, facts, 1, ctx) == Some(FactDatom(facts[0], ctx))
    ensures Found(Scan, log, facts, 2, ctx) == Some(FactDatom(facts[0], ctx))
    ensures Found(Index, log, facts, 2, ctx) == Some(d)
  {
    hide ScanSource, IndexSource, FactDatom;
    ClosedBetween(facts);
    assert log[..0] == [] && FindPrior(log, "e", "a") == Some(d);
  }

  /** Freshness is needed: after the same open assert has been made before, a call that makes it again
      can hide it from one lookup without a trace. */
  lemma {:induction false} RepeatsHideTheSplit(ctx: Ctx)
    ensures var f0 := Fact("e", "a", Hashable("1"), Some(1), None, Assert);
            var f1 := Fact("e", "a", Hashable("2"), Some(2), Some(3), Assert);
            var f2 := Fact("e", "a", Hashable("3"), Some(4), None, Assert);
            var log := [WithTx(FactDatom(f0, ctx), 1)];
            && !SameSources([f0, f1, f2])
            && LogAfter(Index, log, [f0, f1, f2], ctx) == LogAfter(Scan, log, [f0, f1, f2], ctx)
  {
    hide LogAfter, BuildUpTo, ScanSource, IndexSource, FirstRefusal, Found, SourceOf;
    var f0 := Fact("e", "a", Hashable("1"), Some(1), None, Assert);
    var f1 := Fact("e", "a", Hashable("2"), Some(2), Some(3), Assert);
    var f2 := Fact("e", "a", Hashable("3"), Some(4), None, Assert);
    var d := WithTx(FactDatom(f0, ctx), 1);
    var log, facts := [d], [f0, f1, f2];
    assert IsBare("a") && Bare("a") == "a";
    ClosedBetween(facts);
    assert !SameSourceAt(facts, 2);
    FoundBetween(log, facts, ctx, d);
    assert Overwrites(Scan, log, facts, 3, ctx, 1) && Overwrites(Index, log, facts, 3, ctx, 1);
    FirstRefusalNone(Scan, log, facts, 3, ctx);
    FirstRefusalNone(Index, log, facts, 3, ctx);
    assert Companion(d, 4, ctx.now) == Companion(FactDatom(f0, ctx), 4, ctx.now);
    BatchRefinesIff(log, facts, ctx);
  }

  lemma {:induction false} FirstRefusalNone(mode: Lookup, log: seq<Datom>, facts: seq<Fact>, n: nat, ctx: Ctx)
    requires n <= |facts| && forall k :: 0 <= k < n ==> !RefusedAt(mode, log, facts, k, ctx)
    ensures FirstRefusal(mode, log, facts, n, ctx).None?
  {
    hide RefusedAt;
    if n > 0 {
      FirstRefusalNone(mode, log, facts, n - 1, ctx);
    }
  }
}
