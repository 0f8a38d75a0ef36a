/** How the companions of one key divide time over a rising run (src/persistence/fact/db.py). */
module Tiling {
  import opened Wrappers
  import opened Datoms
  import opened Transact
  import opened Runs
  import opened Refinement

  /** Two asserts of one key, `i` before `j`. */
  predicate SameKey(log: seq<Datom>, i: int, j: int) {
    0 <= i < j < |log| && log[i].op.Assert? && log[j].op.Assert? && log[i].e == log[j].e && log[i].a == log[j].a
  }

  /** Assert `i` is the last of its key before assert `j`. */
  predicate IsPrev(log: seq<Datom>, i: int, j: int) {
    SameKey(log, i, j) && forall q :: i < q < j ==> !SameKey(log, q, j)
  }

  /** Retract `i` stands for the key of assert `p` from its valid_from to that of the next datom. */
  predicate SpansFrom(log: seq<Datom>, p: nat, i: nat)
    requires p < |log| && i + 1 < |log|
  {
    && log[i].op.Retract? && log[i].e == log[p].e && log[i].a == log[p].a
    && log[i].validFrom == log[p].validFrom && log[i].validTo == Some(log[i + 1].validFrom)
  }

  ghost predicate Spans(log: seq<Datom>, i: nat)
    requires i < |log|
  {
    i + 1 < |log| && exists p :: 0 <= p < i && IsPrev(log, p, i + 1) && SpansFrom(log, p, i)
  }

  /** The call that wrote `j` is the one that marked `i`, or that wrote it too. */
  predicate Superseded(log: seq<Datom>, i: nat, j: nat)
    requires i < |log| && j < |log|
  {
    log[i].tx == log[j].tx || log[i].invalidatedBy == Some(log[j].tx)
  }

  /** Every retract spans two neighbouring asserts of its key; and an assert has one before it exactly when
      its call superseded the assert of the key before it. */
  ghost predicate Laid(log: seq<Datom>) {
    && (forall i :: 0 <= i < |log| && log[i].op.Retract? ==> Spans(log, i))
    && (forall p, j :: IsPrev(log, p, j) ==> (log[j - 1].op.Retract? <==> Superseded(log, p, j)))
  }

  /** What marks by transaction leave: an assert followed by one of its key in another transaction is marked; the
      asserts of a transaction are marked together; a mark names a transaction of the log. */
  ghost predicate MarkedTogether(log: seq<Datom>) {
    && (forall i, j :: SameKey(log, i, j) && log[i].tx != log[j].tx ==> log[i].invalidatedBy.Some?)
    && (forall i, j ::
          0 <= i < |log| && 0 <= j < |log| && log[i].op.Assert? && log[j].op.Assert? && log[i].tx == log[j].tx ==>
            log[i].invalidatedBy == log[j].invalidatedBy)
    && (forall i :: 0 <= i < |log| && log[i].invalidatedBy.Some? ==> log[i].invalidatedBy.value <= MaxTx(log))
  }

  // ---- The prior found ------------------------------------------------------------------------

  /** No assert of a key is unmarked when a later one is marked. */
  ghost predicate MarkedUpTo(log: seq<Datom>) {
    && (forall i, j :: SameKey(log, i, j) && log[j].invalidatedBy.Some? ==> log[i].invalidatedBy.Some?)
    && (forall i :: 0 <= i < |log| && log[i].op.Assert? ==> log[i].validTo.None?)
  }

  lemma {:induction false} PriorIsLast(log: seq<Datom>, e: string, a: string)
    requires MarkedUpTo(log)
    ensures match LastIndex(log, e, a)
            case None => FindPrior(log, e, a) == None
            case Some(x) => FindPrior(log, e, a) == if log[x].invalidatedBy.None? then Some(log[x]) else None
  {
    if log != [] {
      var n := |log| - 1;
      var init := log[..n];
      forall i, j | SameKey(init, i, j) ensures SameKey(log, i, j) {}
      PriorIsLast(init, e, a);
      var y := LastIndex(init, e, a);
      if log[n].op.Assert? && log[n].e == e && log[n].a == a && y.Some? {
        assert SameKey(log, y.value, n);
      }
    }
  }

  // ---- One more fact --------------------------------------------------------------------------

  /** The draft appended to the log so far. */
  ghost predicate Drafted(log: seq<Datom>, d: Draft) {
    var all := log + d.datoms;
    && (forall i :: |log| <= i < |all| && all[i].op.Retract? ==> Spans(all, i))
    && (forall p, j :: j >= |log| && IsPrev(all, p, j) ==>
          (all[j - 1].op.Retract? <==> p >= |log| || all[p].invalidatedBy.None?))
    && (forall q, j :: q < |log| <= j && SameKey(all, q, j) && all[q].invalidatedBy.None? ==>
          all[q].tx in d.invalidations)
    && (forall j :: |log| <= j < |all| ==> all[j].invalidatedBy.None?)
  }

  /** What a fact adds: the companion `c` of the last assert `x` of its key, if that one is unmarked, and `mine`. */
  ghost predicate Follows(all: seq<Datom>, x: Option<nat>, c: Option<Datom>, mine: Datom) {
    && mine.op.Assert? && mine.invalidatedBy.None?
    && (match x
        case None => forall q :: 0 <= q < |all| && all[q].op.Assert? && all[q].e == mine.e ==> all[q].a != mine.a
        case Some(k) => && k < |all| && all[k].op.Assert? && all[k].e == mine.e && all[k].a == mine.a
                        && forall q :: k < q < |all| && all[q].op.Assert? && all[q].e == mine.e ==> all[q].a != mine.a)
    && (c.Some? <==> x.Some? && all[x.value].invalidatedBy.None?)
    && (c.Some? ==> c.value.op.Retract? && c.value.invalidatedBy.None? && c.value.e == mine.e && c.value.a == mine.a
                    && c.value.validFrom == all[x.value].validFrom && c.value.validTo == Some(mine.validFrom))
  }

  /** Asserts further on change nothing for those before. */
  lemma {:induction false} PrevFrame(a: seq<Datom>, b: seq<Datom>, p: int, j: int)
    requires a <= b && j < |a|
    ensures IsPrev(b, p, j) <==> IsPrev(a, p, j)
  {
    assert forall q :: q < j ==> (SameKey(b, q, j) <==> SameKey(a, q, j));
  }

  lemma {:induction false} SpansFrame(a: seq<Datom>, b: seq<Datom>, i: nat)
    requires a <= b && i < |a| && Spans(a, i)
    ensures Spans(b, i)
  {
    var p :| 0 <= p < i && IsPrev(a, p, i + 1) && SpansFrom(a, p, i);
    PrevFrame(a, b, p, i + 1);
    assert SpansFrom(b, p, i);
  }

  /** Before the new assert stands the last of its key. */
  lemma {:induction false} PrevOfNew(all: seq<Datom>, x: Option<nat>, c: Option<Datom>, mine: Datom, p: int)
    requires Follows(all, x, c, mine)
    ensures var after := Appended(all, c, mine); IsPrev(after, p, |after| - 1) <==> x == Some(p)
  {
    var after := Appended(all, c, mine);
    var j := |after| - 1;
    assert forall q :: 0 <= q < |all| ==> after[q] == all[q];
    if x.Some? {
      assert SameKey(after, x.value, j);
      assert IsPrev(after, x.value, j);
    }
    if IsPrev(after, p, j) {
      assert SameKey(after, p, j);
    }
  }

  /** The retracts of the grown draft, and what stands before its asserts. */
  lemma {:induction false} StepSpans(log: seq<Datom>, d: Draft, x: Option<nat>, c: Option<Datom>, mine: Datom, i: nat)
    requires Drafted(log, d) && Follows(log + d.datoms, x, c, mine)
    requires |log| <= i < |Appended(log + d.datoms, c, mine)| && Appended(log + d.datoms, c, mine)[i].op.Retract?
    ensures Spans(Appended(log + d.datoms, c, mine), i)
  {
    hide Spans, IsPrev;
    var all := log + d.datoms;
    if i < |all| {
      SpansFrame(all, Appended(all, c, mine), i);
    } else {
      PrevOfNew(all, x, c, mine, x.value);
      NewSpans(Appended(all, c, mine), x.value, i);
    }
  }

  lemma {:induction false} StepPrev(log: seq<Datom>, d: Draft, x: Option<nat>, c: Option<Datom>, mine: Datom,
                                    p: int, j: int)
    requires Drafted(log, d) && Follows(log + d.datoms, x, c, mine)
    requires log + d.datoms != [] ==> (log + d.datoms)[|log + d.datoms| - 1].op.Assert?
    requires j >= |log| && IsPrev(Appended(log + d.datoms, c, mine), p, j)
    ensures var after := Appended(log + d.datoms, c, mine);
            after[j - 1].op.Retract? <==> p >= |log| || after[p].invalidatedBy.None?
  {
    hide Spans;
    var all := log + d.datoms;
    if j < |all| {
      PrevFrame(all, Appended(all, c, mine), p, j);
    } else {
      PrevOfNew(all, x, c, mine, p);
    }
  }

  lemma {:induction false} StepMarks(log: seq<Datom>, d: Draft, x: Option<nat>, c: Option<Datom>, mine: Datom,
                                     q: int, j: int)
    requires Drafted(log, d) && MarkedTogether(log) && Follows(log + d.datoms, x, c, mine)
    requires q < |log| <= j && SameKey(Appended(log + d.datoms, c, mine), q, j) && log[q].invalidatedBy.None?
    ensures log[q].tx in d.invalidations || (c.Some? && log[q].tx == (log + d.datoms)[x.value].tx)
  {
    hide Spans, IsPrev, MaxTx;
    var all := log + d.datoms;
    if j < |all| {
      assert SameKey(all, q, j);
    } else if q < x.value {
      assert SameKey(all, q, x.value);
      if x.value < |log| {
        assert SameKey(log, q, x.value);
      }
    }
  }

  lemma {:induction false} StepDrafted(log: seq<Datom>, d: Draft, x: Option<nat>, c: Option<Datom>, mine: Datom)
    requires Drafted(log, d) && MarkedTogether(log) && Follows(log + d.datoms, x, c, mine)
    requires log + d.datoms != [] ==> (log + d.datoms)[|log + d.datoms| - 1].op.Assert?
    ensures var inv := if c.Some? then [(log + d.datoms)[x.value].tx] else [];
            Drafted(log, Draft(Appended(d.datoms, c, mine), d.invalidations + inv))
  {
    hide MarkedTogether, Spans;
    var all := log + d.datoms;
    var after := Appended(all, c, mine);
    assert log + Appended(d.datoms, c, mine) == after && all <= after;
    forall i | |log| <= i < |after| && after[i].op.Retract? ensures Spans(after, i) {
      StepSpans(log, d, x, c, mine, i);
    }
    forall p, j | j >= |log| && IsPrev(after, p, j)
      ensures after[j - 1].op.Retract? <==> p >= |log| || after[p].invalidatedBy.None?
    {
      StepPrev(log, d, x, c, mine, p, j);
    }
    var inv := d.invalidations + if c.Some? then [all[x.value].tx] else [];
    forall q, j | q < |log| <= j && SameKey(after, q, j) && after[q].invalidatedBy.None? ensures after[q].tx in inv {
      StepMarks(log, d, x, c, mine, q, j);
    }
  }

  lemma {:induction false} NewSpans(log: seq<Datom>, p: nat, i: nat)
    requires p < i && i + 1 < |log| && IsPrev(log, p, i + 1) && SpansFrom(log, p, i)
    ensures Spans(log, i)
  {}

  // ---- One call ----------------------------------------------------------------------------------

  predicate BareFacts(facts: seq<Fact>) {
    forall k :: 0 <= k < |facts| ==> IsBare(facts[k].a)
  }

  lemma {:induction false} NothingDrafted(log: seq<Datom>)
    ensures Drafted(log, Draft([], []))
  {
    assert log + [] == log;
  }

  lemma {:induction false} DraftMarks(log: seq<Datom>, d: Draft, s: seq<Entry>)
    requires Drafted(log, d) && MarkedTogether(log) && Extends(log + d.datoms, s)
    ensures MarkedUpTo(log + d.datoms)
  {
    hide MaxTx, Spans, Rising, Paired;
    var all := log + d.datoms;
    forall i, j | SameKey(all, i, j) && all[j].invalidatedBy.Some? ensures all[i].invalidatedBy.Some? {
      assert SameKey(log, i, j);
    }
  }

  lemma {:induction false} LastRises(all: seq<Datom>, c: Datom, mine: Datom, x: nat, s: seq<Entry>)
    requires Extends(all + [c, mine], s) && x < |all| && all[x].op.Assert? && mine.op.Assert?
    requires all[x].e == mine.e && all[x].a == mine.a
    ensures all[x].validFrom < mine.validFrom
  {
    RisingPair(all + [c, mine], x, |all| + 1);
  }

  /** One step of the loop on an open assert under a bare attribute. */
  lemma {:induction false} OneMore(log: seq<Datom>, d: Draft, f: Fact, ctx: Ctx, s: seq<Entry>, s': seq<Entry>)
    requires Drafted(log, d) && MarkedTogether(log) && f.op.Assert? && IsBare(f.a)
    requires log + d.datoms != [] ==> (log + d.datoms)[|log + d.datoms| - 1].op.Assert?
    requires Extends(log + d.datoms, s)
    requires var step := Step(d, f, FindPrior(log + d.datoms, f.e, f.a), ctx);
             step.Some? && Extends(log + step.value.datoms, s')
    ensures Drafted(log, Step(d, f, FindPrior(log + d.datoms, f.e, f.a), ctx).value)
  {
    hide MaxTx, Extends, FindPrior, Drafted, MarkedTogether, Companion, LastIndex;
    var all, mine := log + d.datoms, FactDatom(f, ctx);
    DraftMarks(log, d, s);
    PriorIsLast(all, f.e, f.a);
    var x, prior := LastIndex(all, f.e, f.a), FindPrior(all, f.e, f.a);
    var c := if prior.Some? then Some(Companion(prior.value, ValidFromOf(f, ctx.now), ctx.now)) else None;
    var d' := Step(d, f, prior, ctx).value;
    assert d'.datoms == Appended(d.datoms, c, mine);
    if prior.Some? {
      assert log + d'.datoms == all + [c.value, mine];
      LastRises(all, c.value, mine, x.value, s');
      RisingCompanion(prior.value, mine.validFrom, ctx.now);
    }
    StepDrafted(log, d, x, c, mine);
    assert d.invalidations + [] == d.invalidations;
  }

  lemma {:induction false} RisingCompanion(prior: Datom, vf: int, now: int)
    requires prior.validFrom < vf
    ensures var c := Companion(prior, vf, now);
            && c.op.Retract? && c.invalidatedBy.None? && c.e == prior.e && c.a == prior.a
            && c.validFrom == prior.validFrom && c.validTo == Some(vf)
  {}

  lemma {:induction false} DraftTiles(log: seq<Datom>, facts: seq<Fact>, n: nat, ctx: Ctx, s: seq<Entry>)
    requires n <= |facts| && WellFormed(log) && Extends(log, s) && OpenAsserts(facts) && BareFacts(facts)
    requires Rising(s + Entries(facts, ctx.now)) && MarkedTogether(log)
    requires log != [] ==> log[|log| - 1].op.Assert?
    ensures BuildUpTo(Scan, log, facts, n, ctx).Built?
    ensures Drafted(log, BuildUpTo(Scan, log, facts, n, ctx).draft)
    ensures var all := log + BuildUpTo(Scan, log, facts, n, ctx).draft.datoms;
            all != [] ==> all[|all| - 1].op.Assert?
  {
    hide MaxTx, Extends, Rising, FindPrior, Drafted, Bare, MarkedTogether, Companion;
    OpenCallBuilds(Scan, log, facts, n, ctx, s);
    if n == 0 {
      NothingDrafted(log);
    } else {
      DraftTiles(log, facts, n - 1, ctx, s);
      OpenCallBuilds(Scan, log, facts, n - 1, ctx, s);
      var d := BuildUpTo(Scan, log, facts, n - 1, ctx).draft;
      OneMore(log, d, facts[n - 1], ctx, s + Entries(facts, ctx.now)[..n - 1], s + Entries(facts, ctx.now)[..n]);
    }
  }

  // ---- The commit ---------------------------------------------------------------------------------

  /** Keys, times and kinds are what the tiling looks at. */
  lemma {:induction false} ShapePrev(a: seq<Datom>, b: seq<Datom>, p: int, j: int)
    requires SameShape(a, b)
    ensures IsPrev(a, p, j) <==> IsPrev(b, p, j)
    ensures SameKey(a, p, j) <==> SameKey(b, p, j)
  {
    forall q ensures SameKey(a, q, j) <==> SameKey(b, q, j) {
      assert 0 <= q < |a| ==> EntryOfDatom(a[q]) == EntryOfDatom(b[q]);
    }
  }

  lemma {:induction false} ShapeSpans(a: seq<Datom>, b: seq<Datom>, i: nat)
    requires SameShape(a, b) && i < |a| && Spans(a, i)
    ensures Spans(b, i)
  {
    var p :| 0 <= p < i && IsPrev(a, p, i + 1) && SpansFrom(a, p, i);
    ShapePrev(a, b, p, i + 1);
    assert EntryOfDatom(a[p]) == EntryOfDatom(b[p]) && EntryOfDatom(a[i]) == EntryOfDatom(b[i]);
    assert EntryOfDatom(a[i + 1]) == EntryOfDatom(b[i + 1]);
    assert SpansFrom(b, p, i);
  }

  /** What a commit does to a datom of the log and to one of the draft. */
  ghost predicate Committed(log: seq<Datom>, d: Draft, after: seq<Datom>, tx: int) {
    && |after| == |log| + |d.datoms| && SameShape(log + d.datoms, after)
    && (forall i :: 0 <= i < |log| ==> log[i].tx < tx && after[i].tx == log[i].tx)
    && (forall i :: 0 <= i < |log| ==>
          after[i].invalidatedBy == if log[i].invalidatedBy.None? && log[i].op.Assert? && log[i].tx in d.invalidations
                                    then Some(tx) else log[i].invalidatedBy)
    && (forall i :: |log| <= i < |after| ==> after[i].tx == tx && after[i].invalidatedBy.None?)
    && (forall i :: 0 <= i < |log| && log[i].invalidatedBy.Some? ==> log[i].invalidatedBy.value < tx)
  }

  lemma {:induction false} CommitIs(log: seq<Datom>, d: Draft)
    requires WellFormed(log) && Committable(log, d) && MarkedTogether(log) && Drafted(log, d)
    requires forall k :: 0 <= k < |d.datoms| ==> Unstamped(d.datoms[k])
    ensures Committed(log, d, Commit(log, d), NextTx(log))
  {
    hide Commit, MaxTx, Drafted;
    CommitShape(log, d);
    CommitLength(log, d);
    var after := Commit(log, d);
    forall i | 0 <= i < |after|
      ensures i < |log| ==> after[i].tx == log[i].tx && log[i].tx <= MaxTx(log)
      ensures i < |log| ==> after[i].invalidatedBy ==
                            if log[i].invalidatedBy.None? && log[i].op.Assert? && log[i].tx in d.invalidations
                            then Some(NextTx(log)) else log[i].invalidatedBy
      ensures i >= |log| ==> after[i].tx == NextTx(log) && after[i].invalidatedBy.None?
    {
      CommitAt(log, d, i);
    }
  }

  lemma {:induction false} CommitLaid(log: seq<Datom>, d: Draft, after: seq<Datom>, tx: int)
    requires Laid(log) && MarkedTogether(log) && Drafted(log, d) && Committed(log, d, after, tx)
    ensures Laid(after)
  {
    hide MaxTx, Spans;
    var all := log + d.datoms;
    forall i | 0 <= i < |after| && after[i].op.Retract? ensures Spans(after, i) {
      if i < |log| {
        SpansFrame(log, all, i);
      }
      ShapeSpans(all, after, i);
    }
    forall p, j | IsPrev(after, p, j) ensures after[j - 1].op.Retract? <==> Superseded(after, p, j) {
      ShapePrev(all, after, p, j);
      assert SameKey(all, p, j);
      if j < |log| {
        PrevFrame(log, all, p, j);
        assert SameKey(log, p, j);
      }
    }
  }

  lemma {:induction false} CommitMarks(log: seq<Datom>, d: Draft, after: seq<Datom>, tx: int)
    requires MarkedTogether(log) && Drafted(log, d) && Committed(log, d, after, tx) && Committable(log, d)
    ensures MarkedTogether(after)
  {
    hide Spans, IsPrev, MaxTx;
    var all := log + d.datoms;
    forall i, j | SameKey(after, i, j) && after[i].tx != after[j].tx ensures after[i].invalidatedBy.Some? {
      ShapePrev(all, after, i, j);
      assert SameKey(all, i, j);
      if j < |log| {
        assert SameKey(log, i, j);
      }
    }
    forall i | 0 <= i < |after| && after[i].invalidatedBy.Some?
      ensures after[i].invalidatedBy.value <= MaxTx(after)
    {
      MarkNamesOne(log, d, after, tx, i);
    }
  }

  lemma {:induction false} MarkNamesOne(log: seq<Datom>, d: Draft, after: seq<Datom>, tx: int, i: nat)
    requires MarkedTogether(log) && Committed(log, d, after, tx) && Committable(log, d)
    requires i < |after| && after[i].invalidatedBy.Some?
    ensures after[i].invalidatedBy.value <= MaxTx(after)
  {
    hide MaxTx, SameKey;
    var k :| 0 <= k < |log| && log[k].tx == MaxTx(log);
    assert after[k].tx <= MaxTx(after);
    assert d.datoms != [] ==> after[|log|].tx == tx;
  }

  // ---- Runs ------------------------------------------------------------------------------------------

  /** A log that a rising run goes on from. */
  ghost predicate Tiled(log: seq<Datom>, s: seq<Entry>) {
    WellFormed(log) && Extends(log, s) && Laid(log) && MarkedTogether(log)
  }

  lemma {:induction false} CallTiles(log: seq<Datom>, c: Call, s: seq<Entry>)
    requires Tiled(log, s) && OpenAsserts(c.facts) && BareFacts(c.facts)
    requires Rising(s + Entries(c.facts, c.ctx.now))
    ensures Tiled(LogAfterCall(log, c), s + Entries(c.facts, c.ctx.now))
  {
    hide MaxTx, Extends, Rising, FindPrior, Drafted, MarkedTogether, Commit, BuildUpTo, SpansFrom, Committed;
    OpenBareCallsAgree(c.facts);
    BatchRefinesTransact(log, c.facts, c.ctx);
    OpenCallStep(log, c, s);
    if log != [] {
      LastIsAssert(log);
    }
    DraftTiles(log, c.facts, |c.facts|, c.ctx, s);
    DraftCommittable(Scan, log, c.facts, c.ctx);
    DraftUnstamped(Scan, log, c.facts, |c.facts|, c.ctx);
    var d := BuildAll(Scan, log, c.facts, c.ctx).draft;
    assert LogAfterCall(log, c) == LogAfter(Scan, log, c.facts, c.ctx) == Commit(log, d) by {
      assert c.mode == Scan || c.mode == Index;
    }
    CommitIs(log, d);
    CommitLaid(log, d, Commit(log, d), NextTx(log));
    CommitMarks(log, d, Commit(log, d), NextTx(log));
  }

  lemma {:induction false} LastIsAssert(log: seq<Datom>)
    requires Laid(log) && log != []
    ensures log[|log| - 1].op.Assert?
  {}

  ghost predicate BareCalls(calls: seq<Call>) {
    forall i :: 0 <= i < |calls| ==> BareFacts(calls[i].facts)
  }

  lemma {:induction false} RunTiles(calls: seq<Call>)
    requires OpenCalls(calls) && BareCalls(calls) && Rising(StreamOf(calls))
    ensures Tiled(RunCalls([], calls), StreamOf(calls))
  {
    hide MaxTx, Rising, LogAfterCall;
    if calls != [] {
      var init, c := calls[..|calls| - 1], calls[|calls| - 1];
      RisingStart(StreamOf(init), Entries(c.facts, c.ctx.now));
      RunTiles(init);
      CallTiles(RunCalls([], init), c, StreamOf(init));
    } else {
      NothingRises();
    }
  }

  lemma {:induction false} NothingRises()
    ensures Extends([], [])
  {}

  /** Companion `i` is for (e, a) and spans a time that holds `t`. */
  predicate Holds(log: seq<Datom>, i: int, e: string, a: string, t: int) {
    && 0 <= i < |log| && log[i].op == Retract && log[i].e == e && log[i].a == a
    && log[i].validFrom <= t && log[i].validTo.Some? && t < log[i].validTo.value
  }

  /** Some assert for (e, a) takes effect by `t` and some other after it. */
  ghost predicate Within(log: seq<Datom>, e: string, a: string, t: int) {
    exists i, j :: 0 <= i < |log| && 0 <= j < |log| && IsFor(log[i], e, a) && IsFor(log[j], e, a)
                   && log[i].validFrom <= t < log[j].validFrom
  }

  predicate IsFor(d: Datom, e: string, a: string) {
    d.op == Assert && d.e == e && d.a == a
  }

  /** Where a companion stands: right after the time of assert `p`, up to that of the next assert of the key. */
  lemma {:induction false} CompanionStands(log: seq<Datom>, s: seq<Entry>, i: nat) returns (p: nat)
    requires Tiled(log, s) && i < |log| && log[i].op.Retract?
    ensures p < i && i + 1 < |log| && IsPrev(log, p, i + 1) && SpansFrom(log, p, i)
    ensures log[p].validFrom < log[i + 1].validFrom
  {
    hide MarkedTogether, Rising;
    assert Spans(log, i);
    p :| 0 <= p < i && IsPrev(log, p, i + 1) && SpansFrom(log, p, i);
    RisingPair(log, p, i + 1);
  }

  /** Two companions of one key never hold the same time. */
  lemma {:induction false} NeverOverlap(log: seq<Datom>, s: seq<Entry>, e: string, a: string, t: int, i: nat, j: nat)
    requires Tiled(log, s) && i < j && Holds(log, i, e, a, t)
    ensures !Holds(log, j, e, a, t)
  {
    hide MarkedTogether, Rising, Laid;
    if Holds(log, j, e, a, t) {
      var p := CompanionStands(log, s, i);
      var q := CompanionStands(log, s, j);
      assert !SameKey(log, i + 1, j + 1) || i + 1 <= q;
      if i + 1 < q {
        RisingPair(log, i + 1, q);
      }
      assert false;
    }
  }

  /** The first assert of the key past `t` follows one that has taken effect by `t`. */
  lemma {:induction false} Crossing(log: seq<Datom>, i: nat, j: nat, t: int) returns (p: nat, q: nat)
    requires SameKey(log, i, j) && log[i].validFrom <= t < log[j].validFrom
    ensures IsPrev(log, p, q) && log[q].e == log[j].e && log[q].a == log[j].a
    ensures log[p].validFrom <= t < log[q].validFrom
    decreases j - i
  {
    if k :| i < k < j && SameKey(log, k, j) {
      if log[k].validFrom <= t {
        p, q := Crossing(log, k, j, t);
      } else {
        p, q := Crossing(log, i, k, t);
      }
    } else {
      p, q := i, j;
    }
  }

  /** Over a run of open asserts under bare attributes, in calls of either transactor, whose valid_from rises
      along each key, the companions of a key hold no time twice and none before its first assert or
      after its last. */
  lemma {:induction false} CompanionsNeverOverlap(calls: seq<Call>, e: string, a: string, t: int, i: nat, j: nat)
    requires OpenCalls(calls) && BareCalls(calls) && Rising(StreamOf(calls))
    requires Holds(RunCalls([], calls), i, e, a, t)
    ensures Within(RunCalls([], calls), e, a, t)
    ensures Holds(RunCalls([], calls), j, e, a, t) ==> i == j
  {
    hide Rising, RunCalls, Tiled;
    var log, s := RunCalls([], calls), StreamOf(calls);
    RunTiles(calls);
    if i < j {
      NeverOverlap(log, s, e, a, t, i, j);
    } else if j < i && Holds(log, j, e, a, t) {
      NeverOverlap(log, s, e, a, t, j, i);
    }
    var p := CompanionStands(log, s, i);
    assert IsFor(log[p], e, a) && IsFor(log[i + 1], e, a);
  }

  ghost predicate Gapless(log: seq<Datom>, e: string, a: string) {
    forall t :: Within(log, e, a, t) ==> exists i :: Holds(log, i, e, a, t)
  }

  /** They hold every time in between if and only if each assert of the key was superseded by the call of the
      next one: an assert marked earlier, for a neighbour of its transaction, leaves a gap. */
  lemma {:induction false} CompanionsTileIff(calls: seq<Call>, e: string, a: string)
    requires OpenCalls(calls) && BareCalls(calls) && Rising(StreamOf(calls))
    ensures var log := RunCalls([], calls);
            Gapless(log, e, a) <==> forall p, q :: IsPrev(log, p, q) && IsFor(log[q], e, a) ==> Superseded(log, p, q)
  {
    hide Rising, RunCalls, Tiled, Gapless, Superseded;
    var log, s := RunCalls([], calls), StreamOf(calls);
    RunTiles(calls);
    if Gapless(log, e, a) {
      forall p, q | IsPrev(log, p, q) && IsFor(log[q], e, a) ensures Superseded(log, p, q) {
        GaplessSupersedes(log, s, e, a, p, q);
      }
    }
    if forall p, q :: IsPrev(log, p, q) && IsFor(log[q], e, a) ==> Superseded(log, p, q) {
      SupersededIsGapless(log, s, e, a);
    }
  }

  lemma {:induction false} GaplessSupersedes(log: seq<Datom>, s: seq<Entry>, e: string, a: string, p: nat, q: nat)
    requires Tiled(log, s) && Gapless(log, e, a) && IsPrev(log, p, q) && IsFor(log[q], e, a)
    ensures Superseded(log, p, q)
  {
    hide Tiled, Holds;
    StepRises(log, s, p, q);
    assert IsFor(log[p], e, a) && Within(log, e, a, log[p].validFrom);
    var i :| Holds(log, i, e, a, log[p].validFrom);
    HoldsIn(log, i, e, a, log[p].validFrom);
    HolderIsBefore(log, s, e, a, p, q, i);
  }

  lemma {:induction false} SupersededIsGapless(log: seq<Datom>, s: seq<Entry>, e: string, a: string)
    requires Tiled(log, s)
    requires forall p, q :: IsPrev(log, p, q) && IsFor(log[q], e, a) ==> Superseded(log, p, q)
    ensures Gapless(log, e, a)
  {
    hide Tiled, Holds, Superseded;
    forall t | Within(log, e, a, t) ensures exists i :: Holds(log, i, e, a, t) {
      var i, j :| 0 <= i < |log| && 0 <= j < |log| && IsFor(log[i], e, a) && IsFor(log[j], e, a)
                  && log[i].validFrom <= t < log[j].validFrom;
      InOrder(log, s, i, j);
      var p, q := Crossing(log, i, j, t);
      HeldBetween(log, s, e, a, p, q, t);
    }
  }

  lemma {:induction false} StepRises(log: seq<Datom>, s: seq<Entry>, p: nat, q: nat)
    requires Tiled(log, s) && SameKey(log, p, q)
    ensures log[p].validFrom < log[q].validFrom
  {
    hide Rising, Laid, MarkedTogether;
    RisingPair(log, p, q);
  }

  lemma {:induction false} InOrder(log: seq<Datom>, s: seq<Entry>, i: nat, j: nat)
    requires Tiled(log, s) && i < |log| && j < |log| && log[i].validFrom < log[j].validFrom
    requires log[i].op.Assert? && log[j].op.Assert? && log[i].e == log[j].e && log[i].a == log[j].a
    ensures SameKey(log, i, j)
  {
    if j < i {
      StepRises(log, s, j, i);
    }
  }

  /** The companion that holds the time of assert `p` stands before the next assert of its key. */
  lemma {:induction false} HolderIsBefore(log: seq<Datom>, s: seq<Entry>, e: string, a: string, p: nat, q: nat, i: nat)
    requires Tiled(log, s) && IsPrev(log, p, q) && IsFor(log[q], e, a) && Holds(log, i, e, a, log[p].validFrom)
    ensures i == q - 1 && Superseded(log, p, q)
  {
    hide Rising, MarkedTogether, Extends;
    var p' := CompanionStands(log, s, i);
    var q' := i + 1;
    if p < p' {
      StepRises(log, s, p, p');
    } else if p' < p {
      assert !(p < q') || !SameKey(log, p, q');
      if q' < p {
        StepRises(log, s, q', p);
      }
      assert false;
    }
    assert p == p';
    assert q < q' ==> SameKey(log, q, q');
    assert q' < q ==> SameKey(log, q', q);
  }

  lemma {:induction false} HeldBetween(log: seq<Datom>, s: seq<Entry>, e: string, a: string, p: nat, q: nat, t: int)
    requires Tiled(log, s) && IsPrev(log, p, q) && IsFor(log[q], e, a) && Superseded(log, p, q)
    requires log[p].validFrom <= t < log[q].validFrom
    ensures Holds(log, q - 1, e, a, t)
  {
    hide Rising, MarkedTogether, Extends;
    var p' := CompanionStands(log, s, q - 1);
    assert p' < p ==> SameKey(log, p, q);
    assert p < p' ==> SameKey(log, p', q);
  }

  // ---- A gap -------------------------------------------------------------------------------------------

  /** Open assert of (e, a) from `vf` on. */
  function Says(a: string, vf: int): Fact {
    Fact("e", a, Hashable("1"), Some(vf), None, Assert)
  }

  function Saying(facts: seq<Fact>): Call {
    Call(Scan, facts, Ctx("", false, 0))
  }

  /** Two keys in one call, then the first again, then the second. */
  function GapCalls(): seq<Call> {
    [Saying([Says("p", 1), Says("q", 1)]), Saying([Says("p", 5)]), Saying([Says("q", 9)])]
  }

  lemma {:induction false} BareNames()
    ensures Bare("p") == "p" && Bare("q") == "q" && IsBare("p") && IsBare("q")
  {}

  lemma {:induction false} TwoKeysWritten(ctx: Ctx)
    requires !ctx.force
    ensures LogAfter(Scan, [], [Says("p", 1), Says("q", 1)], ctx)
         == [WithTx(FactDatom(Says("p", 1), ctx), 1), WithTx(FactDatom(Says("q", 1), ctx), 1)]
  {
    hide MarkAll, FindPrior;
    BareNames();
    var facts := [Says("p", 1), Says("q", 1)];
    var p, q := FactDatom(facts[0], ctx), FactDatom(facts[1], ctx);
    FindPriorFound([], "e", "p");
    FindPriorFound([p], "e", "q");
    var none: seq<Datom> := [];
    assert none + none == none && none + [p] == [p];
    assert BuildUpTo(Scan, [], facts, 0, ctx) == Built(Draft([], []));
    assert BuildUpTo(Scan, [], facts, 1, ctx) == Built(Draft([p], []));
    assert BuildUpTo(Scan, [], facts, 2, ctx) == Built(Draft([p] + [q], []));
    assert NextTx([]) == 1;
    assert [] + Stamped([p] + [q], 1) == [WithTx(p, 1), WithTx(q, 1)];
    NoMarks([WithTx(p, 1), WithTx(q, 1)], 1);
  }

  lemma {:induction false} NoMarks(log: seq<Datom>, tx: int)
    ensures MarkAll(log, [], tx) == log
  {}

  /** A call of one open assert later than its prior: the companion, the assert, and the prior's transaction marked;
      without a prior just the assert. */
  lemma {:induction false} OneWritten(log: seq<Datom>, f: Fact, ctx: Ctx)
    requires f.op.Assert? && WellFormed(log)
    requires FindPrior(log, f.e, f.a).Some? ==> FindPrior(log, f.e, f.a).value.validFrom < ValidFromOf(f, ctx.now)
    ensures var tx, mine := NextTx(log), FactDatom(f, ctx);
            LogAfter(Scan, log, [f], ctx) ==
            match FindPrior(log, f.e, f.a)
            case None => log + [WithTx(mine, tx)]
            case Some(p) =>
              MarkAll(log + [WithTx(Companion(p, ValidFromOf(f, ctx.now), ctx.now), tx), WithTx(mine, tx)], [p.tx], tx)
  {
    hide FindPrior, MaxTx, MarkAll;
    var tx, mine, prior := NextTx(log), FactDatom(f, ctx), FindPrior(log, f.e, f.a);
    assert log + [] == log && [] + [mine] == [mine];
    assert BuildUpTo(Scan, log, [f], 0, ctx) == Built(Draft([], []));
    if prior.Some? {
      var c := Companion(prior.value, ValidFromOf(f, ctx.now), ctx.now);
      assert BuildAll(Scan, log, [f], ctx) == Built(Draft([] + [c, mine], [] + [prior.value.tx]));
      assert [] + [c, mine] == [c, mine] && [] + [prior.value.tx] == [prior.value.tx];
      assert Stamped([c, mine], tx) == [WithTx(c, tx), WithTx(mine, tx)];
    } else {
      assert BuildAll(Scan, log, [f], ctx) == Built(Draft([mine], []));
      NoMarks(log + Stamped([mine], tx), tx);
      assert Stamped([mine], tx) == [WithTx(mine, tx)];
    }
  }

  /** An open assert for ("e", a) written by transaction `tx` with mark `mark`. */
  predicate Stands(d: Datom, a: string, tx: int, mark: Option<int>) {
    d.op.Assert? && d.validTo.None? && d.e == "e" && d.a == a && d.tx == tx && d.invalidatedBy == mark
  }

  lemma {:induction false} SecondCall(log: seq<Datom>, ctx: Ctx)
    requires |log| == 2 && Stands(log[0], "p", 1, None) && Stands(log[1], "q", 1, None) && log[0].validFrom == 1
    ensures var after := LogAfter(Scan, log, [Says("p", 5)], ctx);
            && |after| == 4 && Stands(after[0], "p", 1, Some(2)) && Stands(after[1], "q", 1, Some(2))
            && after[2].op.Retract? && after[2].a == "p" && after[2].tx == 2 && Stands(after[3], "p", 2, None)
  {
    hide LogAfter, FindPrior, MaxTx, MarkAll;
    BareNames();
    var p, q := log[0], log[1];
    assert log == [p, q];
    PriorInTwo(p, q);
    OneWritten(log, Says("p", 5), ctx);
    MaxTxOf(log, 1);
    var mid := log + [WithTx(Companion(p, 5, ctx.now), 2), WithTx(FactDatom(Says("p", 5), ctx), 2)];
    forall i | 0 <= i < 4
      ensures MarkAll(mid, [1], 2)[i] == if i < 2 then mid[i].(invalidatedBy := Some(2)) else mid[i]
    {
      MarkAllAt(mid, [1], 2, i);
    }
  }

  lemma {:induction false} ThirdCall(log: seq<Datom>, ctx: Ctx)
    requires |log| == 4 && Stands(log[0], "p", 1, Some(2)) && Stands(log[1], "q", 1, Some(2))
    requires log[2].op.Retract? && log[2].a == "p" && log[2].tx == 2 && Stands(log[3], "p", 2, None)
    ensures LogAfter(Scan, log, [Says("q", 9)], ctx) == log + [WithTx(FactDatom(Says("q", 9), ctx), 3)]
  {
    hide LogAfter, FindPrior, MaxTx, MarkAll, FactDatom, Companion;
    BareNames();
    FindPriorFound(log, "e", "q");
    OneWritten(log, Says("q", 9), ctx);
    assert log[3].tx == 2 && log[3] in log;
    MaxTxOf(log, 2);
  }

  /** What the three calls leave: the asserts of "q" stand at 1 and 4, of transactions 1 and 3, and the first of them
      was marked by transaction 2. */
  lemma {:induction false} GapLog()
    ensures var log := RunCalls([], GapCalls());
            && |log| == 5 && log[2].op.Retract? && Stands(log[0], "p", 1, Some(2)) && Stands(log[1], "q", 1, Some(2))
            && Stands(log[3], "p", 2, None) && Stands(log[4], "q", 3, None)
  {
    hide LogAfter, FindPrior, MaxTx, MarkAll, RunCalls;
    var ctx, calls := Ctx("", false, 0), GapCalls();
    BareNames();
    RunsInTurn(calls);
    TwoKeysWritten(ctx);
    SecondCall(RunCalls([], calls[..1]), ctx);
    ThirdCall(LogAfter(Scan, RunCalls([], calls[..1]), [Says("p", 5)], ctx), ctx);
  }

  lemma {:induction false} RunsInTurn(calls: seq<Call>)
    requires |calls| == 3
    ensures RunCalls([], calls[..1]) == LogAfterCall([], calls[0])
    ensures RunCalls([], calls) == LogAfterCall(LogAfterCall(RunCalls([], calls[..1]), calls[1]), calls[2])
  {
    hide LogAfterCall;
    assert calls[..1][..0] == [] && calls[..2][..1] == calls[..1] && calls[..3] == calls;
    assert RunCalls([], calls[..1][..0]) == [];
    assert RunCalls([], calls[..2]) == LogAfterCall(RunCalls([], calls[..1]), calls[1]);
  }

  lemma {:induction false} PriorInTwo(p: Datom, q: Datom)
    requires p.Live() && p.e == "e" && p.a == "p" && q.a == "q"
    ensures FindPrior([p, q], "e", "p") == Some(p)
  {
    FindPriorSnoc([p], q, "e", "p");
    FindPriorSnoc([], p, "e", "p");
    assert [p] + [q] == [p, q] && [] + [p] == [p];
  }

  lemma {:induction false} MaxTxOf(log: seq<Datom>, m: int)
    requires log != [] && (forall d :: d in log ==> d.tx <= m) && exists d :: d in log && d.tx == m
    ensures NextTx(log) == m + 1
  {
    var d :| d in log && d.tx == m;
    var i :| 0 <= i < |log| && log[i] == d;
    assert log[i].tx <= MaxTx(log);
  }

  /** A call that overwrites one key of a transaction leaves a gap in the companions of the other: after these
      three calls no companion of "q" holds the times from 1 to 9. */
  lemma {:induction false} NeighbourLeavesAGap()
    ensures var calls := GapCalls();
            && OpenCalls(calls) && BareCalls(calls) && Rising(StreamOf(calls))
            && !Gapless(RunCalls([], calls), "e", "q")
  {
    hide RunCalls, Gapless;
    var calls, log := GapCalls(), RunCalls([], GapCalls());
    GapLog();
    GapStream();
    assert SameKey(log, 1, 4) && forall k :: 1 < k < 4 ==> !SameKey(log, k, 4);
    assert IsPrev(log, 1, 4) && IsFor(log[4], "e", "q") && !Superseded(log, 1, 4);
    CompanionsTileIff(calls, "e", "q");
  }

  lemma {:induction false} GapStream()
    ensures var calls := GapCalls(); OpenCalls(calls) && BareCalls(calls) && Rising(StreamOf(calls))
  {
    var calls := GapCalls();
    BareNames();
    var now := 0;
    assert calls[..2][..1] == calls[..1] && calls[..1][..0] == [];
    assert StreamOf(calls[..1]) == [] + Entries(calls[0].facts, now);
    assert StreamOf(calls[..2]) == StreamOf(calls[..1]) + Entries(calls[1].facts, now);
    assert StreamOf(calls) == StreamOf(calls[..2]) + Entries(calls[2].facts, now);
    var s := StreamOf(calls);
    assert |s| == 4 && s[0] == EntryOf(Says("p", 1), now) && s[1] == EntryOf(Says("q", 1), now);
    assert s[2] == EntryOf(Says("p", 5), now) && s[3] == EntryOf(Says("q", 9), now);
  }

  // ---- Calls of one key --------------------------------------------------------------------------------

  predicate AllFor(facts: seq<Fact>, e: string, a: string) {
    forall k :: 0 <= k < |facts| ==> facts[k].e == e && facts[k].a == a
  }

  ghost predicate OneKey(facts: seq<Fact>) {
    exists e, a :: AllFor(facts, e, a)
  }

  ghost predicate OneKeyCalls(calls: seq<Call>) {
    forall i :: 0 <= i < |calls| ==> OneKey(calls[i].facts)
  }

  /** No transaction asserts two keys, the last assert of each key is unmarked, and every other was superseded by
      the next. */
  ghost predicate Seamless(log: seq<Datom>) {
    && (forall p, q :: IsPrev(log, p, q) ==> Superseded(log, p, q))
    && (forall j :: 0 <= j < |log| && log[j].op.Assert? && log[j].invalidatedBy.Some? ==>
          exists q :: SameKey(log, j, q))
    && (forall i, j ::
          0 <= i < |log| && 0 <= j < |log| && log[i].op.Assert? && log[j].op.Assert? && log[i].tx == log[j].tx ==>
            log[i].e == log[j].e && log[i].a == log[j].a)
  }

  /** A draft of one key: its asserts are of that key, and so are those of the transactions it marks. */
  ghost predicate DraftFor(log: seq<Datom>, d: Draft, e: string, a: string) {
    && (forall x :: x in d.datoms && x.op.Assert? ==> IsFor(x, e, a))
    && (d.datoms != [] ==> d.datoms[|d.datoms| - 1].op.Assert?)
    && (forall x :: x in d.invalidations ==> x == TX_PLACEHOLDER || exists y :: y in log && IsFor(y, e, a) && y.tx == x)
  }

  lemma {:induction false} OneKeyStep(log: seq<Datom>, d: Draft, c: Option<Datom>, mine: Datom, x: Option<int>,
                                      e: string, a: string)
    requires DraftFor(log, d, e, a) && IsFor(mine, e, a) && (c.Some? ==> c.value.op.Retract?)
    requires x.Some? ==> x.value == TX_PLACEHOLDER || exists y :: y in log && IsFor(y, e, a) && y.tx == x.value
    ensures DraftFor(log, Draft(Appended(d.datoms, c, mine), d.invalidations + if x.Some? then [x.value] else []), e, a)
  {}

  lemma {:induction false} OneKeyDraft(log: seq<Datom>, facts: seq<Fact>, n: nat, ctx: Ctx, e: string, a: string)
    requires n <= |facts| && AllFor(facts, e, a) && IsBare(a) && BuildUpTo(Scan, log, facts, n, ctx).Built?
    requires OpenAsserts(facts)
    ensures DraftFor(log, BuildUpTo(Scan, log, facts, n, ctx).draft, e, a)
  {
    hide PriorOf, Bare, Found, MaxTx, DraftFor, Step, Appended, Companion;
    if n == 0 {
      NoDraftFor(log, e, a);
    } else {
      var m := n - 1;
      OneKeyDraft(log, facts, m, ctx, e, a);
      BuildStep(Scan, log, facts, m, ctx);
      var c, found := CompanionAt(Scan, log, facts, m, ctx), Found(Scan, log, facts, m, ctx);
      if c.Some? {
        FoundTx(Scan, log, facts, m, ctx);
        CompanionIsRetract(found.value, ValidFromOf(facts[m], ctx.now), ctx.now);
      }
      OneKeyStep(log, BuildUpTo(Scan, log, facts, m, ctx).draft, c, FactDatom(facts[m], ctx),
                 if c.Some? then Some(found.value.tx) else None, e, a);
    }
  }

  lemma {:induction false} NoDraftFor(log: seq<Datom>, e: string, a: string)
    ensures DraftFor(log, Draft([], []), e, a)
  {}

  lemma {:induction false} CompanionIsRetract(prior: Datom, vf: int, now: int)
    ensures Companion(prior, vf, now).op.Retract?
  {}

  lemma {:induction false} CommitSupersedes(log: seq<Datom>, d: Draft, after: seq<Datom>, tx: int, p: int, q: int)
    requires Seamless(log) && Drafted(log, d) && Committed(log, d, after, tx) && IsPrev(after, p, q)
    ensures Superseded(after, p, q)
  {
    hide Spans;
    var all := log + d.datoms;
    ShapePrev(all, after, p, q);
    assert SameKey(all, p, q);
    if q < |log| {
      PrevFrame(log, all, p, q);
      assert Superseded(log, p, q);
    } else {
      NoneBetween(log, all, p, q);
    }
  }

  lemma {:induction false} NoneBetween(a: seq<Datom>, b: seq<Datom>, p: int, q: int)
    requires a <= b && IsPrev(b, p, q) && q >= |a|
    ensures forall r :: !SameKey(a, p, r)
  {
    forall r ensures !SameKey(a, p, r) {
      assert SameKey(a, p, r) ==> SameKey(b, r, q);
    }
  }

  lemma {:induction false} CommitLeavesLast(log: seq<Datom>, d: Draft, after: seq<Datom>, tx: int, e: string, a: string,
                                            j: nat)
    requires Seamless(log) && WellFormed(log) && Committed(log, d, after, tx) && DraftFor(log, d, e, a)
    requires Committable(log, d)
    requires j < |after| && after[j].op.Assert? && after[j].invalidatedBy.Some?
    ensures exists q :: SameKey(after, j, q)
  {
    hide MaxTx, IsPrev;
    var all := log + d.datoms;
    if log[j].invalidatedBy.Some? {
      var q :| SameKey(log, j, q);
      ShapePrev(all, after, j, q);
      assert SameKey(after, j, q);
    } else {
      var y :| y in log && IsFor(y, e, a) && y.tx == log[j].tx;
      var n := |d.datoms| - 1;
      assert d.datoms[n] in d.datoms && IsFor(d.datoms[n], e, a);
      assert SameKey(all, j, |log| + n);
      ShapePrev(all, after, j, |log| + n);
    }
  }

  lemma {:induction false} CommitKeepsKeys(log: seq<Datom>, d: Draft, after: seq<Datom>, tx: int, e: string, a: string,
                                           i: nat, j: nat)
    requires Seamless(log) && Committed(log, d, after, tx) && DraftFor(log, d, e, a)
    requires i < |after| && j < |after| && after[i].op.Assert? && after[j].op.Assert? && after[i].tx == after[j].tx
    ensures after[i].e == after[j].e && after[i].a == after[j].a
  {
    hide IsPrev;
    var all := log + d.datoms;
    assert EntryOfDatom(after[i]) == EntryOfDatom(all[i]) && EntryOfDatom(after[j]) == EntryOfDatom(all[j]);
    assert i >= |log| ==> d.datoms[i - |log|] in d.datoms;
    assert j >= |log| ==> d.datoms[j - |log|] in d.datoms;
  }

  lemma {:induction false} CommitSeamless(log: seq<Datom>, d: Draft, after: seq<Datom>, tx: int, e: string, a: string)
    requires Seamless(log) && WellFormed(log) && Drafted(log, d) && Committed(log, d, after, tx)
    requires DraftFor(log, d, e, a) && Committable(log, d)
    ensures Seamless(after)
  {
    hide Spans, MaxTx, Drafted, Committed, DraftFor, Committable, WellFormed;
    forall p, q | IsPrev(after, p, q) ensures Superseded(after, p, q) {
      CommitSupersedes(log, d, after, tx, p, q);
    }
    forall j | 0 <= j < |after| && after[j].op.Assert? && after[j].invalidatedBy.Some?
      ensures exists q :: SameKey(after, j, q)
    {
      CommitLeavesLast(log, d, after, tx, e, a, j);
    }
    forall i, j | 0 <= i < |after| && 0 <= j < |after| && after[i].op.Assert? && after[j].op.Assert?
                  && after[i].tx == after[j].tx
      ensures after[i].e == after[j].e && after[i].a == after[j].a
    {
      CommitKeepsKeys(log, d, after, tx, e, a, i, j);
    }
  }

  lemma {:induction false} CallSeamless(log: seq<Datom>, c: Call, s: seq<Entry>, e: string, a: string)
    requires Tiled(log, s) && Seamless(log) && OpenAsserts(c.facts) && BareFacts(c.facts) && AllFor(c.facts, e, a)
    requires Rising(s + Entries(c.facts, c.ctx.now))
    ensures Seamless(LogAfterCall(log, c))
  {
    hide MaxTx, Extends, Rising, FindPrior, Drafted, MarkedTogether, Commit, BuildUpTo, SpansFrom, Committed, DraftFor,
         Seamless, Committable;
    OpenBareCallsAgree(c.facts);
    BatchRefinesTransact(log, c.facts, c.ctx);
    if log != [] {
      LastIsAssert(log);
    }
    DraftTiles(log, c.facts, |c.facts|, c.ctx, s);
    DraftCommittable(Scan, log, c.facts, c.ctx);
    DraftUnstamped(Scan, log, c.facts, |c.facts|, c.ctx);
    var d := BuildAll(Scan, log, c.facts, c.ctx).draft;
    assert LogAfterCall(log, c) == LogAfter(Scan, log, c.facts, c.ctx) == Commit(log, d) by {
      assert c.mode == Scan || c.mode == Index;
    }
    if c.facts == [] {
      DraftNonEmpty(Scan, log, c.facts, 0, c.ctx);
      NothingCommitted(log);
    } else {
      assert IsBare(c.facts[0].a);
      OneKeyDraft(log, c.facts, |c.facts|, c.ctx, e, a);
      CommitIs(log, d);
      CommitSeamless(log, d, Commit(log, d), NextTx(log), e, a);
    }
  }

  lemma {:induction false} NothingCommitted(log: seq<Datom>)
    ensures Commit(log, Draft([], [])) == log
  {}

  lemma {:induction false} RunSeamless(calls: seq<Call>)
    requires OpenCalls(calls) && BareCalls(calls) && OneKeyCalls(calls) && Rising(StreamOf(calls))
    ensures Seamless(RunCalls([], calls))
  {
    hide MaxTx, Rising, LogAfterCall, Tiled;
    if calls != [] {
      var init, c := calls[..|calls| - 1], calls[|calls| - 1];
      RisingStart(StreamOf(init), Entries(c.facts, c.ctx.now));
      RunTiles(init);
      RunSeamless(init);
      var e, a :| AllFor(c.facts, e, a);
      CallSeamless(RunCalls([], init), c, StreamOf(init), e, a);
    }
  }

  /** Calls that each write one key leave no gap: every time between the first assert of a key and its last is
      held by exactly one companion. */
  lemma {:induction false} OneKeyCallsTile(calls: seq<Call>, e: string, a: string, t: int)
    requires OpenCalls(calls) && BareCalls(calls) && OneKeyCalls(calls) && Rising(StreamOf(calls))
    ensures var log := RunCalls([], calls);
            && (Within(log, e, a, t) <==> exists i :: Holds(log, i, e, a, t))
            && forall i, j :: Holds(log, i, e, a, t) && Holds(log, j, e, a, t) ==> i == j
  {
    hide Rising, RunCalls, Within, Holds, IsPrev, Superseded;
    var log := RunCalls([], calls);
    RunSeamless(calls);
    CompanionsTileIff(calls, e, a);
    forall i, j | Holds(log, i, e, a, t)
      ensures Within(log, e, a, t) && (Holds(log, j, e, a, t) ==> i == j)
    {
      HoldsIn(log, i, e, a, t);
      HoldsIn(log, j, e, a, t);
      if 0 <= j {
        CompanionsNeverOverlap(calls, e, a, t, i, j);
      } else {
        CompanionsNeverOverlap(calls, e, a, t, i, i);
      }
    }
  }

  lemma {:induction false} HoldsIn(log: seq<Datom>, i: int, e: string, a: string, t: int)
    ensures Holds(log, i, e, a, t) ==> 0 <= i < |log|
  {}
}
