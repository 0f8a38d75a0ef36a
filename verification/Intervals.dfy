/** What the datoms of a call say, field by field, and how its companions divide time (src/persistence/fact/db.py). */
module Intervals {
  import opened Wrappers
  import opened Datoms
  import opened Transact
  import opened Runs
  import opened Refinement

  // ---- The datoms of a call -----------------------------------------------------------------

  /** The datoms of a stretch of the log that name no superseding transaction: all but the companions. */
  function Own(ds: seq<Datom>): seq<Datom> {
    if ds == [] then []
    else
      var d := ds[|ds| - 1];
      Own(ds[..|ds| - 1]) + if d.prov.supersededBy.None? then [d] else []
  }

  lemma {:induction false} OwnSnoc(ds: seq<Datom>, d: Datom)
    ensures Own(ds + [d]) == Own(ds) + if d.prov.supersededBy.None? then [d] else []
  {
    assert (ds + [d])[..|ds|] == ds;
  }

  /** Datom `d` records fact `f` as given: under its attribute less the leading colons, from the time it names or
      else the clock's, for as long as it says, with the caller's provenance and the fact itself. */
  predicate Records(d: Datom, f: Fact, ctx: Ctx, tx: int) {
    && d.e == f.e && d.v == f.v && d.op == f.op && d.validTo == f.validTo
    && StripsColons(f.a, d.a)
    && (f.validFrom.Some? ==> d.validFrom == f.validFrom.value) && (f.validFrom.None? ==> d.validFrom == ctx.now)
    && d.tx == tx && d.txTime == ctx.now && d.invalidatedBy == None
    && d.prov.base == ctx.base && d.prov.promptOf == Some(f) && d.prov.supersededBy == None
  }

  lemma {:induction false} FactIsRecorded(f: Fact, ctx: Ctx, tx: int)
    ensures Records(WithTx(FactDatom(f, ctx), tx), f, ctx, tx)
  {
    hide Bare;
    BareStrips(f.a);
  }

  lemma {:induction false} OwnAppended(ds: seq<Datom>, c: Option<Datom>, mine: Datom)
    requires mine.prov.supersededBy.None? && (c.Some? ==> c.value.prov.supersededBy.Some?)
    ensures Own(Appended(ds, c, mine)) == Own(ds) + [mine]
  {
    hide Own;
    OwnSnoc(ds, mine);
    if c.Some? {
      OwnSnoc(ds, c.value);
      OwnSnoc(ds + [c.value], mine);
      assert ds + [c.value, mine] == ds + [c.value] + [mine];
      assert Own(ds) + [] == Own(ds);
    }
  }

  lemma {:induction false} OwnOfDraft(mode: Lookup, log: seq<Datom>, facts: seq<Fact>, n: nat, ctx: Ctx)
    requires n <= |facts| && BuildUpTo(mode, log, facts, n, ctx).Built?
    ensures var own := Own(BuildUpTo(mode, log, facts, n, ctx).draft.datoms);
            |own| == n && forall k :: 0 <= k < n ==> own[k] == FactDatom(facts[k], ctx)
  {
    hide PriorOf, Found, CompanionAt, Bare, Appended, RefusedAt, Step;
    if n > 0 {
      OwnOfDraft(mode, log, facts, n - 1, ctx);
      BuildStep(mode, log, facts, n - 1, ctx);
      CompanionsName(mode, log, facts, n - 1, ctx);
      OwnAppended(BuildUpTo(mode, log, facts, n - 1, ctx).draft.datoms, CompanionAt(mode, log, facts, n - 1, ctx),
                  FactDatom(facts[n - 1], ctx));
    }
  }

  lemma {:induction false} OwnStamped(ds: seq<Datom>, tx: int)
    ensures Own(Stamped(ds, tx)) == Stamped(Own(ds), tx)
  {
    if ds != [] {
      var init, d := ds[..|ds| - 1], ds[|ds| - 1];
      OwnStamped(init, tx);
      assert Stamped(ds, tx) == Stamped(init, tx) + [WithTx(d, tx)];
      OwnSnoc(Stamped(init, tx), WithTx(d, tx));
    }
  }

  lemma {:induction false} CommitAppends(log: seq<Datom>, d: Draft)
    requires WellFormed(log) && Committable(log, d)
    ensures Commit(log, d)[|log|..] == Stamped(d.datoms, NextTx(log))
  {
    hide Commit, MaxTx;
    CommitLength(log, d);
    forall i | |log| <= i < |log| + |d.datoms|
      ensures Commit(log, d)[i] == Stamped(d.datoms, NextTx(log))[i - |log|]
    {
      CommitAt(log, d, i);
    }
  }

  /** Leaving out companions, an accepted call appends one datom for each of its facts, in their order, that
      records it. */
  lemma {:induction false} CallRecordsFacts(mode: Lookup, log: seq<Datom>, facts: seq<Fact>, ctx: Ctx)
    requires WellFormed(log) && BuildAll(mode, log, facts, ctx).Built?
    ensures |log| <= |LogAfter(mode, log, facts, ctx)|
    ensures var own := Own(LogAfter(mode, log, facts, ctx)[|log|..]);
            |own| == |facts| && forall k :: 0 <= k < |facts| ==> Records(own[k], facts[k], ctx, NextTx(log))
  {
    hide BuildUpTo, Own, MaxTx, Commit, FactDatom, Records;
    var d, tx := BuildAll(mode, log, facts, ctx).draft, NextTx(log);
    DraftCommittable(mode, log, facts, ctx);
    CommitLength(log, d);
    CommitAppends(log, d);
    OwnStamped(d.datoms, tx);
    OwnOfDraft(mode, log, facts, |facts|, ctx);
    forall k | 0 <= k < |facts| ensures Records(Stamped(Own(d.datoms), tx)[k], facts[k], ctx, tx) {
      FactIsRecorded(facts[k], ctx, tx);
    }
  }

  // ---- One companion --------------------------------------------------------------------

  function Min(x: int, y: int): int {
    if x <= y then x else y
  }

  function Max(x: int, y: int): int {
    if x <= y then y else x
  }

  /** Retract `c` closes the open assert `p` to make room for the assert `next`: it names p's entity, attribute
      and value, keeps p's provenance, is recorded with `next`, and spans the time between the two. */
  predicate MakesRoom(p: Datom, c: Datom, next: Datom) {
    && p.op == Assert && p.validTo == None
    && c.op == Retract && c.e == p.e && c.a == p.a && c.v == p.v
    && c.validFrom == Min(p.validFrom, next.validFrom) && c.validTo == Some(Max(p.validFrom, next.validFrom))
    && c.txTime == next.txTime && c.tx == next.tx && c.invalidatedBy == None
    && c.prov.base == p.prov.base && c.prov.promptOf == p.prov.promptOf && c.prov.supersededBy == Some(c.tx)
    && next.op == Assert && next.e == p.e && next.a == p.a && next.prov.supersededBy == None
  }

  /** Datom `i` of the log makes room for the next, of an assert that stands before it. */
  ghost predicate RoomMadeAt(log: seq<Datom>, i: nat)
    requires i < |log|
  {
    i + 1 < |log| && exists j :: 0 <= j < i && MakesRoom(log[j], log[i], log[i + 1])
  }

  ghost predicate RoomMade(log: seq<Datom>, from: nat) {
    forall i :: from <= i < |log| && log[i].prov.supersededBy.Some? ==> RoomMadeAt(log, i)
  }

  lemma {:induction false} RoomStaysMade(log: seq<Datom>, from: nat, c: Option<Datom>, mine: Datom)
    requires RoomMade(log, from) && mine.prov.supersededBy.None?
    requires c.Some? ==> exists j :: 0 <= j < |log| && MakesRoom(log[j], c.value, mine)
    ensures RoomMade(Appended(log, c, mine), from)
  {
    hide MakesRoom;
    var after := Appended(log, c, mine);
    forall i | from <= i < |after| && after[i].prov.supersededBy.Some? ensures RoomMadeAt(after, i) {
      if i < |log| {
        assert RoomMadeAt(log, i);
        var j :| 0 <= j < i && MakesRoom(log[j], log[i], log[i + 1]);
        assert MakesRoom(after[j], after[i], after[i + 1]);
      } else {
        var j :| 0 <= j < |log| && MakesRoom(log[j], c.value, mine);
        assert MakesRoom(after[j], after[i], after[i + 1]);
      }
    }
  }

  lemma {:induction false} OwnIn(ds: seq<Datom>, k: nat)
    requires k < |Own(ds)|
    ensures Own(ds)[k] in ds
  {
    if k < |Own(ds[..|ds| - 1])| {
      OwnIn(ds[..|ds| - 1], k);
    }
  }

  lemma {:induction false} CompanionMakesRoom(mode: Lookup, log: seq<Datom>, facts: seq<Fact>, n: nat, ctx: Ctx)
    requires WellFormed(log) && n < |facts| && BuildUpTo(mode, log, facts, n, ctx).Built?
    requires CompanionAt(mode, log, facts, n, ctx).Some?
    ensures var all := log + BuildUpTo(mode, log, facts, n, ctx).draft.datoms;
            exists j :: 0 <= j < |all| && MakesRoom(all[j], CompanionAt(mode, log, facts, n, ctx).value,
                                                    FactDatom(facts[n], ctx))
  {
    hide BuildUpTo, FindPrior, Own, SourceOf, Bare;
    var ds, f := BuildUpTo(mode, log, facts, n, ctx).draft.datoms, facts[n];
    var all, p := log + ds, Found(mode, log, facts, n, ctx).value;
    var source := SourceOf(mode, facts, n, f.e, f.a);
    if source.Some? {
      OwnOfDraft(mode, log, facts, n, ctx);
      OwnIn(ds, source.value);
      var k :| 0 <= k < |ds| && ds[k] == p;
      assert all[|log| + k] == p;
    } else {
      FindPriorFound(log, f.e, f.a);
      var k :| 0 <= k < |log| && log[k] == p;
      assert all[k] == p && Bare(p.a) == p.a;
    }
  }

  lemma {:induction false} DraftMakesRoom(mode: Lookup, log: seq<Datom>, facts: seq<Fact>, n: nat, ctx: Ctx)
    requires WellFormed(log) && n <= |facts| && BuildUpTo(mode, log, facts, n, ctx).Built?
    ensures RoomMade(log + BuildUpTo(mode, log, facts, n, ctx).draft.datoms, |log|)
  {
    hide PriorOf, Found, Step, MakesRoom, RefusedAt, CompanionAt;
    if n > 0 {
      DraftMakesRoom(mode, log, facts, n - 1, ctx);
      var ds := BuildUpTo(mode, log, facts, n - 1, ctx).draft.datoms;
      var c, mine := CompanionAt(mode, log, facts, n - 1, ctx), FactDatom(facts[n - 1], ctx);
      BuildStep(mode, log, facts, n - 1, ctx);
      if c.Some? {
        CompanionMakesRoom(mode, log, facts, n - 1, ctx);
      }
      RoomStaysMade(log + ds, |log|, c, mine);
      assert Appended(log + ds, c, mine) == log + Appended(ds, c, mine);
    }
  }

  lemma {:induction false} CommitMakesRoom(log: seq<Datom>, d: Draft, i: nat)
    requires WellFormed(log) && Committable(log, d) && RoomMade(log + d.datoms, |log|)
    requires |log| <= i < |log| + |d.datoms| && d.datoms[i - |log|].prov.supersededBy.Some?
    requires forall k :: 0 <= k < |d.datoms| ==> Unstamped(d.datoms[k])
    ensures RoomMadeAt(Commit(log, d), i)
  {
    hide Commit, MaxTx;
    var all, after := log + d.datoms, Commit(log, d);
    CommitLength(log, d);
    assert RoomMadeAt(all, i);
    var j :| 0 <= j < i && MakesRoom(all[j], all[i], all[i + 1]);
    CommitAt(log, d, i);
    CommitAt(log, d, i + 1);
    CommitAt(log, d, j);
    assert MakesRoom(after[j], after[i], after[i + 1]);
  }

  /** In the log any call leaves, each companion it wrote is followed at once by the assert it makes room for, and
      closes an open assert of that key before it, from the earlier of their two times to the later. */
  lemma {:induction false} CompanionsMakeRoom(mode: Lookup, log: seq<Datom>, facts: seq<Fact>, ctx: Ctx, i: nat)
    requires WellFormed(log) && |log| <= i < |LogAfter(mode, log, facts, ctx)|
    requires LogAfter(mode, log, facts, ctx)[i].prov.supersededBy.Some?
    ensures var after := LogAfter(mode, log, facts, ctx);
            i + 1 < |after| && exists j :: 0 <= j < i && MakesRoom(after[j], after[i], after[i + 1])
  {
    hide BuildUpTo, MaxTx, Commit, MakesRoom;
    var d := BuildAll(mode, log, facts, ctx).draft;
    DraftCommittable(mode, log, facts, ctx);
    DraftUnstamped(mode, log, facts, |facts|, ctx);
    DraftMakesRoom(mode, log, facts, |facts|, ctx);
    CommitLength(log, d);
    CommitAt(log, d, i);
    StampKeepsNames(d.datoms[i - |log|], NextTx(log));
    CommitMakesRoom(log, d, i);
    assert RoomMadeAt(Commit(log, d), i);
  }

  lemma {:induction false} StampKeepsNames(d: Datom, tx: int)
    ensures WithTx(d, tx).prov.supersededBy.Some? <==> d.prov.supersededBy.Some?
  {}

  // ---- Priors and refusals -----------------------------------------------------------------------

  /** Datom `i` is an open, unmarked assert for exactly (e, a). */
  predicate OpenFor(ds: seq<Datom>, i: nat, e: string, a: string)
    requires i < |ds|
  {
    ds[i].op == Assert && ds[i].e == e && ds[i].a == a && ds[i].validTo == None && ds[i].invalidatedBy == None
  }

  /** The prior is the last open, unmarked assert of the key; there is none exactly when there is no prior. */
  lemma {:induction false} PriorIsNewest(ds: seq<Datom>, e: string, a: string)
    ensures match FindPrior(ds, e, a)
            case None => forall i :: 0 <= i < |ds| ==> !OpenFor(ds, i, e, a)
            case Some(p) => exists i :: 0 <= i < |ds| && OpenFor(ds, i, e, a) && ds[i] == p
                                        && forall j :: i < j < |ds| ==> !OpenFor(ds, j, e, a)
  {
    if ds != [] {
      var n := |ds| - 1;
      PriorIsNewest(ds[..n], e, a);
      assert forall i :: 0 <= i < n ==> (OpenFor(ds[..n], i, e, a) <==> OpenFor(ds, i, e, a));
    }
  }

  /** A call of one fact is refused exactly when it is an unforced assert that would take effect before the
      prior of its key did. */
  lemma {:induction false} OneFactRefusedIff(mode: Lookup, log: seq<Datom>, f: Fact, ctx: Ctx)
    ensures BuildAll(mode, log, [f], ctx).Refused? <==>
            && f.op == Assert && !ctx.force && FindPrior(log, f.e, f.a).Some?
            && (if f.validFrom.Some? then f.validFrom.value else ctx.now) < FindPrior(log, f.e, f.a).value.validFrom
    ensures BuildAll(mode, log, [f], ctx).Refused? ==>
              && OutcomeOf(BuildAll(mode, log, [f], ctx)) == RetroactiveCorrection(0)
              && LogAfter(mode, log, [f], ctx) == log
  {
    hide FindPrior, Companion, FactDatom;
    OneFactCallsAgree(f);
    SameSourcesAgree(log, [f], 1, ctx);
    assert log + [] == log;
    assert BuildUpTo(Scan, log, [f], 0, ctx) == Built(Draft([], []));
  }

  // ---- Transaction ids ------------------------------------------------------------------------------

  /** How many calls of a run, begun on an empty store, were accepted and had facts. */
  function Accepted(calls: seq<Call>): nat {
    if calls == [] then 0
    else
      var init, c := calls[..|calls| - 1], calls[|calls| - 1];
      Accepted(init) + if c.facts != [] && BuildAll(c.mode, RunCalls([], init), c.facts, c.ctx).Built? then 1 else 0
  }

  /** The ids in the log are 1 to `n`, each of them used. */
  ghost predicate Numbered(log: seq<Datom>, n: nat) {
    && (forall i :: 0 <= i < |log| ==> 1 <= log[i].tx <= n)
    && (forall t :: 1 <= t <= n ==> Uses(log, t))
  }

  ghost predicate Uses(log: seq<Datom>, t: int) {
    exists i :: 0 <= i < |log| && log[i].tx == t
  }

  lemma {:induction false} NextIsNumbered(log: seq<Datom>, n: nat)
    requires Numbered(log, n)
    ensures NextTx(log) == n + 1
  {
    if n > 0 {
      assert Uses(log, n);
      assert n <= MaxTx(log);
    }
  }

  lemma {:induction false} CommitNumbers(log: seq<Datom>, d: Draft, n: nat)
    requires Numbered(log, n) && d.datoms != []
    ensures Numbered(Commit(log, d), n + 1)
  {
    hide MaxTx, MarkAll;
    NextIsNumbered(log, n);
    var appended, after := log + Stamped(d.datoms, n + 1), Commit(log, d);
    MarkAllKeepsRest(appended, d.invalidations, n + 1);
    forall i | 0 <= i < |after| ensures after[i].tx == appended[i].tx {
      assert after[i].Erased() == appended[i].Erased();
      assert after[i].Erased().tx == after[i].tx && appended[i].Erased().tx == appended[i].tx;
    }
    forall t | 1 <= t <= n + 1 ensures Uses(after, t) {
      if t <= n {
        assert Uses(log, t);
        var i :| 0 <= i < |log| && log[i].tx == t;
        assert after[i].tx == appended[i].tx == t;
      } else {
        assert after[|log|].tx == appended[|log|].tx == t;
      }
    }
  }

  /** Transactions are numbered 1, 2, 3 and so on: a refused call, or one without facts, uses no number. */
  lemma {:induction false} IdsAreConsecutive(calls: seq<Call>)
    ensures Numbered(RunCalls([], calls), Accepted(calls))
  {
    hide BuildUpTo, Commit, Numbered;
    if calls == [] {
      NothingNumbered();
    } else {
      var init, c := calls[..|calls| - 1], calls[|calls| - 1];
      IdsAreConsecutive(init);
      var log := RunCalls([], init);
      if BuildAll(c.mode, log, c.facts, c.ctx).Built? {
        DraftNonEmpty(c.mode, log, c.facts, |c.facts|, c.ctx);
        var d := BuildAll(c.mode, log, c.facts, c.ctx).draft;
        if c.facts != [] {
          CommitNumbers(log, d, Accepted(init));
        } else {
          EmptyCommit(log);
        }
      }
    }
  }

  lemma {:induction false} NothingNumbered()
    ensures Numbered([], 0)
  {}

  lemma {:induction false} EmptyCommit(log: seq<Datom>)
    ensures Commit(log, Draft([], [])) == log
  {}
}
