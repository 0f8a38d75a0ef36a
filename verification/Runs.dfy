/** Whole runs of the two transactors: what every sequence of calls keeps, and what the
    views show however the facts were cut into calls (src/persistence/fact/db.py). */
module Runs {
  import opened Wrappers
  import opened Datoms
  import opened Views
  import opened Transact

  datatype Call = Call(mode: Lookup, facts: seq<Fact>, ctx: Ctx)

  function LogAfterCall(log: seq<Datom>, c: Call): seq<Datom> {
    LogAfter(c.mode, log, c.facts, c.ctx)
  }

  /** The log after a run of calls; refused calls leave it alone. */
  function RunCalls(log: seq<Datom>, calls: seq<Call>): seq<Datom> {
    if calls == [] then log
    else LogAfterCall(RunCalls(log, calls[..|calls| - 1]), calls[|calls| - 1])
  }

  // ---- Streams of open asserts -------------------------------------------------

  /** What an open assert says: the value of (e, a) from `vf` on. */
  datatype Entry = Entry(e: string, a: string, v: Value, vf: int)

  function EntryOf(f: Fact, now: int): Entry {
    Entry(f.e, Bare(f.a), f.v, ValidFromOf(f, now))
  }

  function EntryOfDatom(d: Datom): Entry {
    Entry(d.e, d.a, d.v, d.validFrom)
  }

  function Entries(facts: seq<Fact>, now: int): (r: seq<Entry>)
    ensures |r| == |facts|
  {
    seq(|facts|, i requires 0 <= i < |facts| => EntryOf(facts[i], now))
  }

  /** The stream a run asserts, in order. */
  function StreamOf(calls: seq<Call>): seq<Entry> {
    if calls == [] then []
    else
      var c := calls[|calls| - 1];
      StreamOf(calls[..|calls| - 1]) + Entries(c.facts, c.ctx.now)
  }

  /** `valid_from` strictly increases along each (e, a). */
  ghost predicate Rising(s: seq<Entry>) {
    forall i, j :: 0 <= i < j < |s| && s[i].e == s[j].e && s[i].a == s[j].a ==> s[i].vf < s[j].vf
  }

  ghost predicate OpenAsserts(facts: seq<Fact>) {
    forall i :: 0 <= i < |facts| ==> facts[i].op.Assert? && facts[i].validTo.None?
  }

  function LastValue(s: seq<Entry>, e: string, a: string): Option<Value> {
    if s == [] then None
    else
      var x := s[|s| - 1];
      if x.e == e && x.a == a then Some(x.v) else LastValue(s[..|s| - 1], e, a)
  }

  function EntryAttrs(s: seq<Entry>): set<string> {
    set i | 0 <= i < |s| :: s[i].a
  }

  /** Entity `e` as the stream itself defines it: the last value of each attribute. */
  function LastValues(s: seq<Entry>, e: string): map<string, Value> {
    map a | a in EntryAttrs(s) && LastValue(s, e, a).Some? :: LastValue(s, e, a).value
  }

  /** The part of the stream that has taken effect by `vt`. */
  function UpTo(s: seq<Entry>, vt: int): seq<Entry> {
    if s == [] then []
    else
      var x := s[|s| - 1];
      UpTo(s[..|s| - 1], vt) + if x.vf <= vt then [x] else []
  }

  // ---- The shape such a stream gives the log -----------------------------------

  function AssertsOf(log: seq<Datom>): seq<Entry> {
    if log == [] then []
    else
      var d := log[|log| - 1];
      AssertsOf(log[..|log| - 1]) + if d.op.Assert? then [EntryOfDatom(d)] else []
  }

  /** Every retract closes an earlier assert and sits directly before its successor. */
  ghost predicate Paired(log: seq<Datom>) {
    forall i :: 0 <= i < |log| && log[i].op.Retract? ==> PairedAt(log, i)
  }

  ghost predicate PairedAt(log: seq<Datom>, i: nat)
    requires i < |log|
  {
    && i + 1 < |log| && log[i + 1].op.Assert? && log[i + 1].e == log[i].e && log[i + 1].a == log[i].a
    && exists p :: 0 <= p < i && log[p].op.Assert? && EntryOfDatom(log[p]) == EntryOfDatom(log[i])
  }

  ghost predicate Forward(log: seq<Datom>) {
    && (forall i :: 0 <= i < |log| && log[i].op.Assert? ==> log[i].validTo.None?)
    && Rising(AssertsOf(log))
    && Paired(log)
  }

  lemma {:induction false} AssertIn(log: seq<Datom>, i: nat)
    requires i < |log| && log[i].op.Assert?
    ensures EntryOfDatom(log[i]) in AssertsOf(log)
  {
    if i < |log| - 1 {
      AssertIn(log[..|log| - 1], i);
    }
  }

  lemma {:induction false} AssertAt(log: seq<Datom>, x: Entry)
    requires x in AssertsOf(log)
    ensures exists p :: 0 <= p < |log| && log[p].op.Assert? && EntryOfDatom(log[p]) == x
  {
    var init, d := log[..|log| - 1], log[|log| - 1];
    if d.op.Assert? && EntryOfDatom(d) == x {
    } else {
      AssertAt(init, x);
      var p :| 0 <= p < |init| && init[p].op.Assert? && EntryOfDatom(init[p]) == x;
      assert log[p] == init[p];
    }
  }

  lemma {:induction false} RisingPair(log: seq<Datom>, i: nat, j: nat)
    requires i < j < |log| && Rising(AssertsOf(log))
    requires log[i].op.Assert? && log[j].op.Assert? && log[i].e == log[j].e && log[i].a == log[j].a
    ensures log[i].validFrom < log[j].validFrom
    decreases |log|
  {
    var init := log[..|log| - 1];
    var s, s0 := AssertsOf(log), AssertsOf(init);
    assert forall k :: 0 <= k < |s0| ==> s[k] == s0[k];
    if j < |log| - 1 {
      assert Rising(s0);
      RisingPair(init, i, j);
    } else {
      AssertIn(init, i);
      var k :| 0 <= k < |s0| && s0[k] == EntryOfDatom(log[i]);
      assert s[k] == s0[k] && s[|s| - 1] == EntryOfDatom(log[j]);
    }
  }

  function LastIndex(log: seq<Datom>, e: string, a: string): (r: Option<nat>)
    ensures r.Some? ==> r.value < |log| && log[r.value].op.Assert? && log[r.value].e == e && log[r.value].a == a
    ensures forall i :: 0 <= i < |log| && log[i].op.Assert? && log[i].e == e && log[i].a == a ==>
             r.Some? && i <= r.value
  {
    if log == [] then None
    else
      var d := log[|log| - 1];
      if d.op.Assert? && d.e == e && d.a == a then Some(|log| - 1) else LastIndex(log[..|log| - 1], e, a)
  }

  lemma {:induction false} LastIndexValue(log: seq<Datom>, e: string, a: string)
    ensures LastValue(AssertsOf(log), e, a) ==
            match LastIndex(log, e, a) case Some(i) => Some(log[i].v) case None => None
  {
    hide AssertsOf, LastValue;
    if log == [] {
      NoLastValue(e, a);
    } else {
      var init, d := log[..|log| - 1], log[|log| - 1];
      LastIndexValue(init, e, a);
      AssertsSnoc(init, d);
      LastValueSnoc(AssertsOf(init), EntryOfDatom(d), e, a);
      assert log == init + [d];
    }
  }

  lemma {:induction false} NoLastValue(e: string, a: string)
    ensures LastValue(AssertsOf([]), e, a) == None
  {}

  lemma {:induction false} LastValueSnoc(s: seq<Entry>, x: Entry, e: string, a: string)
    ensures LastValue(s + [x], e, a) == if x.e == e && x.a == a then Some(x.v) else LastValue(s, e, a)
  {
    assert (s + [x])[..|s|] == s;
  }

  /** The last assert of a key is never closed on a forward log. */
  lemma {:induction false} LastIsOpen(log: seq<Datom>, e: string, a: string, d: nat)
    requires Forward(log) && LastIndex(log, e, a) == Some(d)
    ensures !Closed(log, log[d])
  {
    hide LastIndex, Freeze, AssertsOf;
    if Closed(log, log[d]) {
      var i :| 0 <= i < |log| && Closes(log[i], log[d]);
      assert PairedAt(log, i);
      var p :| 0 <= p < i && log[p].op.Assert? && EntryOfDatom(log[p]) == EntryOfDatom(log[i]);
      RisingPair(log, p, i + 1);
      if i + 1 < d {
        RisingPair(log, i + 1, d);
      }
      assert false;
    }
  }

  lemma {:induction false} LatestOnForward(log: seq<Datom>, e: string, a: string)
    requires Forward(log)
    ensures Latest(log, log, e, a) ==
            match LastIndex(log, e, a) case Some(i) => Some(log[i]) case None => None
  {
    LatestIsMaximal(log, log, e, a);
    var r := Latest(log, log, e, a);
    match LastIndex(log, e, a)
    case None =>
    case Some(d) =>
      LastIsOpen(log, e, a, d);
      assert IsCandidate(log, log[d], e, a);
      var i :| 0 <= i < |log| && log[i] == r.value;
      if i < d {
        RisingPair(log, i, d);
      }
  }

  /** On a forward log `entity` is the last value of each attribute. */
  lemma {:induction false} EntityOnForward(log: seq<Datom>, e: string)
    requires Forward(log)
    ensures EntityOf(log, e) == LastValues(AssertsOf(log), e)
  {
    var m := LastValues(AssertsOf(log), e);
    forall a ensures (a in EntityOf(log, e) <==> a in m) && (a in m ==> EntityOf(log, e)[a] == m[a]) {
      EntityAt(log, e, a);
      LatestOnForward(log, e, a);
      LastIndexValue(log, e, a);
      LastValueAttr(AssertsOf(log), e, a);
    }
  }

  lemma {:induction false} LastValueAttr(s: seq<Entry>, e: string, a: string)
    ensures LastValue(s, e, a).Some? ==> a in EntryAttrs(s)
  {
    if s != [] {
      var init, x := s[..|s| - 1], s[|s| - 1];
      LastValueAttr(init, e, a);
      if x.e == e && x.a == a {
        assert s[|s| - 1].a in EntryAttrs(s);
      } else if LastValue(s, e, a).Some? {
        var i :| 0 <= i < |init| && init[i].a == a;
        assert s[i].a in EntryAttrs(s);
      }
    }
  }

  // ---- The valid-time slice of a forward log -----------------------------------

  lemma {:induction false} ValidSliceEntries(log: seq<Datom>, vt: int)
    requires forall i :: 0 <= i < |log| && log[i].op.Assert? ==> log[i].validTo.None?
    ensures AssertsOf(AsOfValidOf(log, vt)) == UpTo(AssertsOf(log), vt)
    ensures forall i :: 0 <= i < |AsOfValidOf(log, vt)| ==>
             AsOfValidOf(log, vt)[i].op.Assert? && AsOfValidOf(log, vt)[i].validTo.None?
  {
    hide AssertsOf, UpTo, AsOfValidOf;
    if log == [] {
      NoEntries(vt);
    } else {
      var init, d := log[..|log| - 1], log[|log| - 1];
      ValidSliceEntries(init, vt);
      ValidSliceStep(init, d, vt);
      assert log == init + [d];
    }
  }

  lemma {:induction false} ValidSliceStep(init: seq<Datom>, d: Datom, vt: int)
    requires AssertsOf(AsOfValidOf(init, vt)) == UpTo(AssertsOf(init), vt)
    requires d.op.Assert? ==> d.validTo.None?
    ensures AssertsOf(AsOfValidOf(init + [d], vt)) == UpTo(AssertsOf(init + [d]), vt)
    ensures AsOfValidOf(init + [d], vt) == AsOfValidOf(init, vt)
            || AsOfValidOf(init + [d], vt) == AsOfValidOf(init, vt) + [d]
    ensures AsOfValidOf(init + [d], vt) == AsOfValidOf(init, vt) + [d] ==> d.op.Assert?
  {
    hide AssertsOf, AsOfValidOf, UpTo;
    AssertsSnoc(init, d);
    AssertsSnoc(AsOfValidOf(init, vt), d);
    ValidSnoc(init, d, vt);
    UpToSnoc(AssertsOf(init), if d.op.Assert? then Some(EntryOfDatom(d)) else None, vt);
    assert AsOfValidOf(init, vt) + [] == AsOfValidOf(init, vt);
    assert UpTo(AssertsOf(init), vt) + [] == UpTo(AssertsOf(init), vt);
  }

  lemma {:induction false} NoEntries(vt: int)
    ensures AsOfValidOf([], vt) == [] && AssertsOf([]) == [] && UpTo([], vt) == []
  {}

  lemma {:induction false} ValidSnoc(init: seq<Datom>, d: Datom, vt: int)
    ensures AsOfValidOf(init + [d], vt) == AsOfValidOf(init, vt) + if ValidAt(d, vt) then [d] else []
  {
    assert (init + [d])[..|init|] == init;
  }

  lemma {:induction false} UpToSnoc(s: seq<Entry>, x: Option<Entry>, vt: int)
    ensures UpTo([], vt) == []
    ensures x.Some? ==> UpTo(s + [x.value], vt) == UpTo(s, vt) + if x.value.vf <= vt then [x.value] else []
  {
    if x.Some? {
      assert (s + [x.value])[..|s|] == s;
    }
  }

  lemma {:induction false} UpToRises(s: seq<Entry>, vt: int)
    requires Rising(s)
    ensures Rising(UpTo(s, vt))
    ensures forall x :: x in UpTo(s, vt) ==> x in s
  {
    hide UpTo;
    if s == [] {
      NoEntries(vt);
    } else {
      var init, x := s[..|s| - 1], s[|s| - 1];
      assert Rising(init);
      UpToRises(init, vt);
      UpToSnoc(init, Some(x), vt);
      assert s == init + [x];
      var u := UpTo(init, vt);
      forall i | 0 <= i < |u| && u[i].e == x.e && u[i].a == x.a ensures u[i].vf < x.vf {
        assert u[i] in init;
        var k :| 0 <= k < |init| && init[k] == u[i];
        assert s[k] == init[k];
      }
    }
  }

  lemma {:induction false} ValidSliceForward(log: seq<Datom>, vt: int)
    requires Forward(log)
    ensures Forward(AsOfValidOf(log, vt))
    ensures AssertsOf(AsOfValidOf(log, vt)) == UpTo(AssertsOf(log), vt)
  {
    ValidSliceEntries(log, vt);
    UpToRises(AssertsOf(log), vt);
  }

  // ---- Calls of open asserts keep the log forward --------------------------------

  /** The fields `entity` and the shape predicates read. */
  ghost predicate SameShape(a: seq<Datom>, b: seq<Datom>) {
    |a| == |b| && forall i :: 0 <= i < |a| ==>
      a[i].op == b[i].op && EntryOfDatom(a[i]) == EntryOfDatom(b[i]) && a[i].validTo == b[i].validTo
  }

  lemma {:induction false} ShapeEntries(a: seq<Datom>, b: seq<Datom>)
    requires SameShape(a, b)
    ensures AssertsOf(a) == AssertsOf(b)
    decreases |a|
  {
    if a != [] {
      ShapeEntries(a[..|a| - 1], b[..|b| - 1]);
    }
  }

  lemma {:induction false} ShapeForward(a: seq<Datom>, b: seq<Datom>)
    requires SameShape(a, b) && Forward(a)
    ensures Forward(b) && AssertsOf(a) == AssertsOf(b)
  {
    ShapeEntries(a, b);
    forall i | 0 <= i < |b| && b[i].op.Retract? ensures PairedAt(b, i) {
      assert PairedAt(a, i);
      var p :| 0 <= p < i && a[p].op.Assert? && EntryOfDatom(a[p]) == EntryOfDatom(a[i]);
      assert b[p].op.Assert? && EntryOfDatom(b[p]) == EntryOfDatom(b[i]);
    }
  }

  lemma {:induction false} CommitShape(log: seq<Datom>, d: Draft)
    ensures SameShape(log + d.datoms, Commit(log, d))
  {
    if d.datoms == [] {
      assert log + d.datoms == log;
    } else {
      var tx := NextTx(log);
      var appended := log + Stamped(d.datoms, tx);
      MarkAllKeepsRest(appended, d.invalidations, tx);
      var final := Commit(log, d);
      forall i | 0 <= i < |final|
        ensures final[i].op == (log + d.datoms)[i].op && final[i].validTo == (log + d.datoms)[i].validTo
        ensures EntryOfDatom(final[i]) == EntryOfDatom((log + d.datoms)[i])
      {
        assert final[i].Erased() == appended[i].Erased();
      }
    }
  }

  lemma {:induction false} CommitWellFormed(log: seq<Datom>, d: Draft)
    requires WellFormed(log) && forall i :: 0 <= i < |d.datoms| ==> IsBare(d.datoms[i].a)
    ensures WellFormed(Commit(log, d))
  {
    if d.datoms != [] {
      var tx := NextTx(log);
      var appended := log + Stamped(d.datoms, tx);
      MarkAllKeepsRest(appended, d.invalidations, tx);
      var final := Commit(log, d);
      forall i | 0 <= i < |final| ensures final[i].tx >= 1 && IsBare(final[i].a) {
        assert final[i].Erased() == appended[i].Erased();
      }
    }
  }

  lemma {:induction false} DraftBare(mode: Lookup, log: seq<Datom>, facts: seq<Fact>, n: nat, ctx: Ctx)
    requires WellFormed(log) && n <= |facts| && BuildUpTo(mode, log, facts, n, ctx).Built?
    ensures forall d :: d in BuildUpTo(mode, log, facts, n, ctx).draft.datoms ==> IsBare(d.a)
  {
    hide PriorOf, Bare;
    if n > 0 {
      DraftBare(mode, log, facts, n - 1, ctx);
      var d := BuildUpTo(mode, log, facts, n - 1, ctx).draft;
      var prior := PriorOf(mode, log, facts, n - 1, d.datoms, ctx);
      PriorFound(mode, log, facts, n - 1, d.datoms, ctx);
    }
  }

  /** Whatever the lookup, a prior is a live assert, its stored key the fact's. */
  lemma {:induction false} PriorFound(mode: Lookup, log: seq<Datom>, facts: seq<Fact>, n: nat, datoms: seq<Datom>,
                                      ctx: Ctx)
    requires n < |facts|
    ensures var p := PriorOf(mode, log, facts, n, datoms, ctx);
            p.Some? ==> p.value.Live() && p.value.e == facts[n].e
                        && ((p.value in log + datoms && p.value.a == facts[n].a)
                            || exists j :: 0 <= j < n && facts[j].op.Assert? && facts[j].e == facts[n].e
                                           && facts[j].a == facts[n].a
                                           && p.value == FactDatom(facts[j], ctx))
  {
    var f := facts[n];
    FindPriorFound(log + datoms, f.e, f.a);
    FindPriorFound(log, f.e, f.a);
    InBatchIsIndexSource(facts, n, f.e, f.a, ctx);
  }

  ghost predicate Extends(log: seq<Datom>, s: seq<Entry>) {
    Forward(log) && AssertsOf(log) == s
  }

  lemma {:induction false} OpenCallBuilds(mode: Lookup, log: seq<Datom>, facts: seq<Fact>, n: nat, ctx: Ctx,
                                          s: seq<Entry>)
    requires n <= |facts| && WellFormed(log) && Extends(log, s) && OpenAsserts(facts)
    requires Rising(s + Entries(facts, ctx.now))
    ensures BuildUpTo(mode, log, facts, n, ctx).Built?
    ensures Extends(log + BuildUpTo(mode, log, facts, n, ctx).draft.datoms, s + Entries(facts, ctx.now)[..n])
  {
    hide PriorOf, Extends, Rising, Companion, FactDatom;
    var all := Entries(facts, ctx.now);
    if n == 0 {
      assert log + [] == log && s + all[..0] == s;
    } else {
      OpenCallBuilds(mode, log, facts, n - 1, ctx, s);
      var d := BuildUpTo(mode, log, facts, n - 1, ctx).draft;
      var prior := PriorOf(mode, log, facts, n - 1, d.datoms, ctx);
      if prior.Some? {
        PriorIsEarlier(mode, log, facts, n - 1, d.datoms, ctx, s);
      }
      RisingSnoc(s, all, n);
      assert all[n - 1] == EntryOf(facts[n - 1], ctx.now);
      OpenStep(log, d, facts[n - 1], prior, ctx, s + all[..n - 1]);
    }
  }

  lemma {:induction false} RisingSnoc(s: seq<Entry>, all: seq<Entry>, n: nat)
    requires 0 < n <= |all| && Rising(s + all)
    ensures s + all[..n] == s + all[..n - 1] + [all[n - 1]]
    ensures Rising(s + all[..n - 1] + [all[n - 1]])
  {
    var part, whole := s + all[..n - 1] + [all[n - 1]], s + all;
    assert forall i :: 0 <= i < |part| ==> part[i] == whole[i];
  }

  lemma {:induction false} OpenStep(log: seq<Datom>, d: Draft, f: Fact, prior: Option<Datom>, ctx: Ctx, s: seq<Entry>)
    requires f.op.Assert? && f.validTo.None? && Extends(log + d.datoms, s) && Rising(s + [EntryOf(f, ctx.now)])
    requires prior.Some? ==> prior.value.op.Assert? && prior.value.e == f.e && prior.value.a == Bare(f.a)
                             && EntryOfDatom(prior.value) in s
    ensures Step(d, f, prior, ctx).Some?
    ensures Extends(log + Step(d, f, prior, ctx).value.datoms, s + [EntryOf(f, ctx.now)])
  {
    var x, mine := EntryOf(f, ctx.now), FactDatom(f, ctx);
    if prior.Some? {
      var k :| 0 <= k < |s| && s[k] == EntryOfDatom(prior.value);
      assert (s + [x])[k] == s[k] && (s + [x])[|s|] == x;
      var c := Companion(prior.value, x.vf, ctx.now);
      AppendPair(log + d.datoms, c, mine, s);
      assert log + (d.datoms + [c, mine]) == log + d.datoms + [c, mine];
    } else {
      AppendOne(log + d.datoms, mine, s);
      assert log + (d.datoms + [mine]) == log + d.datoms + [mine];
    }
  }

  /** The prior a lookup returns is an earlier entry of the same stored key. */
  lemma {:induction false} PriorIsEarlier(mode: Lookup, log: seq<Datom>, facts: seq<Fact>, n: nat, datoms: seq<Datom>,
                                          ctx: Ctx, s: seq<Entry>)
    requires n < |facts| && WellFormed(log) && OpenAsserts(facts)
    requires Extends(log + datoms, s + Entries(facts, ctx.now)[..n])
    requires BuildUpTo(mode, log, facts, n, ctx).Built? && BuildUpTo(mode, log, facts, n, ctx).draft.datoms == datoms
    requires PriorOf(mode, log, facts, n, datoms, ctx).Some?
    ensures var p := PriorOf(mode, log, facts, n, datoms, ctx).value;
            && p.op.Assert? && p.e == facts[n].e && p.a == Bare(facts[n].a)
            && EntryOfDatom(p) in s + Entries(facts, ctx.now)[..n]
  {
    var p := PriorOf(mode, log, facts, n, datoms, ctx).value;
    PriorFound(mode, log, facts, n, datoms, ctx);
    DraftBare(mode, log, facts, n, ctx);
    if p in log + datoms && p.a == facts[n].a {
      var i :| 0 <= i < |log + datoms| && (log + datoms)[i] == p;
      AssertIn(log + datoms, i);
    } else {
      var j :| 0 <= j < n && facts[j].op.Assert? && facts[j].e == facts[n].e && facts[j].a == facts[n].a
               && p == FactDatom(facts[j], ctx);
      var tail := Entries(facts, ctx.now)[..n];
      assert tail[j] == EntryOfDatom(p);
      assert (s + tail)[|s| + j] == tail[j];
    }
  }

  lemma {:induction false} AssertsSnoc(log: seq<Datom>, d: Datom)
    ensures AssertsOf(log + [d]) == if d.op.Assert? then AssertsOf(log) + [EntryOfDatom(d)] else AssertsOf(log)
  {
    assert (log + [d])[..|log|] == log;
  }

  lemma {:induction false} AppendOne(log: seq<Datom>, d: Datom, s: seq<Entry>)
    requires Extends(log, s) && d.op.Assert? && d.validTo.None? && Rising(s + [EntryOfDatom(d)])
    ensures Extends(log + [d], s + [EntryOfDatom(d)])
  {
    hide AssertsOf, Rising, EntryOfDatom;
    var l := log + [d];
    AssertsSnoc(log, d);
    forall i | 0 <= i < |l| && l[i].op.Retract? ensures PairedAt(l, i) {
      assert PairedAt(log, i);
      var p :| 0 <= p < i && log[p].op.Assert? && EntryOfDatom(log[p]) == EntryOfDatom(log[i]);
      assert l[p] == log[p] && l[i] == log[i];
    }
  }

  lemma {:induction false} AppendPair(log: seq<Datom>, c: Datom, d: Datom, s: seq<Entry>)
    requires Extends(log, s) && d.op.Assert? && d.validTo.None? && Rising(s + [EntryOfDatom(d)])
    requires c.op.Retract? && c.e == d.e && c.a == d.a && EntryOfDatom(c) in s
    ensures Extends(log + [c, d], s + [EntryOfDatom(d)])
  {
    hide AssertsOf, Rising;
    var l := log + [c, d];
    var m := log + [c];
    AssertsSnoc(log, c);
    AssertsSnoc(m, d);
    assert l == m + [d];
    AssertAt(log, EntryOfDatom(c));
    forall i | 0 <= i < |l| && l[i].op.Retract? ensures PairedAt(l, i) {
      if i < |log| {
        assert PairedAt(log, i);
        var p :| 0 <= p < i && log[p].op.Assert? && EntryOfDatom(log[p]) == EntryOfDatom(log[i]);
        assert l[p] == log[p] && l[i] == log[i];
      } else {
        var p :| 0 <= p < |log| && log[p].op.Assert? && EntryOfDatom(log[p]) == EntryOfDatom(c);
        assert l[p] == log[p] && l[i] == c;
      }
    }
  }

  ghost predicate OpenCalls(calls: seq<Call>) {
    forall i :: 0 <= i < |calls| ==> OpenAsserts(calls[i].facts)
  }

  /** A run of open asserts that goes on rising from a forward log. */
  ghost predicate Continues(log: seq<Datom>, calls: seq<Call>) {
    WellFormed(log) && Forward(log) && OpenCalls(calls) && Rising(AssertsOf(log) + StreamOf(calls))
  }

  lemma {:induction false} RunKeepsForward(log: seq<Datom>, calls: seq<Call>)
    requires Continues(log, calls)
    ensures WellFormed(RunCalls(log, calls)) && Extends(RunCalls(log, calls), AssertsOf(log) + StreamOf(calls))
  {
    hide Rising, AssertsOf, LogAfterCall;
    if calls == [] {
      assert AssertsOf(log) + StreamOf(calls) == AssertsOf(log);
    } else {
      var c := calls[|calls| - 1];
      var init := calls[..|calls| - 1];
      var s := AssertsOf(log) + StreamOf(init);
      assert AssertsOf(log) + StreamOf(calls) == s + Entries(c.facts, c.ctx.now);
      RisingStart(s, Entries(c.facts, c.ctx.now));
      RunKeepsForward(log, init);
      OpenCallStep(RunCalls(log, init), c, s);
    }
  }

  lemma {:induction false} RisingStart(s: seq<Entry>, more: seq<Entry>)
    requires Rising(s + more)
    ensures Rising(s)
  {
    assert forall i :: 0 <= i < |s| ==> s[i] == (s + more)[i];
  }

  lemma {:induction false} OpenCallStep(log: seq<Datom>, c: Call, s: seq<Entry>)
    requires WellFormed(log) && Extends(log, s) && OpenAsserts(c.facts)
    requires Rising(s + Entries(c.facts, c.ctx.now))
    ensures BuildAll(c.mode, log, c.facts, c.ctx).Built?
    ensures WellFormed(LogAfterCall(log, c)) && Extends(LogAfterCall(log, c), s + Entries(c.facts, c.ctx.now))
  {
    var n := |c.facts|;
    OpenCallBuilds(c.mode, log, c.facts, n, c.ctx, s);
    DraftBare(c.mode, log, c.facts, n, c.ctx);
    var d := BuildUpTo(c.mode, log, c.facts, n, c.ctx).draft;
    assert Entries(c.facts, c.ctx.now)[..n] == Entries(c.facts, c.ctx.now);
    CommitShape(log, d);
    CommitWellFormed(log, d);
    ShapeForward(log + d.datoms, Commit(log, d));
  }

  /** However a rising stream of open asserts is cut into `transact` and `transact_batch` calls, and whatever
      forward log it continues: no call is refused, `entity` shows the last value of each attribute, and
      the valid-time slice at `vt` shows the last value that has taken effect by `vt`. */
  lemma {:induction false} SplitViewsFrom(log: seq<Datom>, calls: seq<Call>, e: string, vt: int)
    requires Continues(log, calls)
    ensures var all, after := AssertsOf(log) + StreamOf(calls), RunCalls(log, calls);
            && EntityOf(after, e) == LastValues(all, e)
            && EntityOf(AsOfValidOf(after, vt), e) == LastValues(UpTo(all, vt), e)
    ensures forall i :: 0 <= i < |calls| ==>
              BuildAll(calls[i].mode, RunCalls(log, calls[..i]), calls[i].facts, calls[i].ctx).Built?
  {
    hide RunCalls, BuildAll, EntityOf, LastValues, StreamOf, Continues;
    var after := RunCalls(log, calls);
    RunKeepsForward(log, calls);
    EntityOnForward(after, e);
    ValidSliceForward(after, vt);
    EntityOnForward(AsOfValidOf(after, vt), e);
    forall i | 0 <= i < |calls|
      ensures BuildAll(calls[i].mode, RunCalls(log, calls[..i]), calls[i].facts, calls[i].ctx).Built?
    {
      NoneIsRefused(log, calls, i);
    }
  }

  lemma {:induction false} NoneIsRefused(log: seq<Datom>, calls: seq<Call>, i: nat)
    requires Continues(log, calls) && i < |calls|
    ensures BuildAll(calls[i].mode, RunCalls(log, calls[..i]), calls[i].facts, calls[i].ctx).Built?
  {
    hide Rising, Extends, RunCalls, BuildAll, Forward;
    var c := calls[i];
    StreamPrefix(log, calls, i);
    StreamPrefix(log, calls, i + 1);
    RunKeepsForward(log, calls[..i]);
    assert calls[..i + 1][..i] == calls[..i];
    assert AssertsOf(log) + StreamOf(calls[..i + 1])
        == AssertsOf(log) + StreamOf(calls[..i]) + Entries(c.facts, c.ctx.now);
    OpenCallStep(RunCalls(log, calls[..i]), c, AssertsOf(log) + StreamOf(calls[..i]));
  }

  lemma {:induction false} StreamPrefix(log: seq<Datom>, calls: seq<Call>, n: nat)
    requires n <= |calls| && Continues(log, calls)
    ensures Continues(log, calls[..n])
    decreases |calls|
  {
    hide Rising, AssertsOf;
    if n == |calls| {
      assert calls[..n] == calls;
    } else {
      var init, c := calls[..|calls| - 1], calls[|calls| - 1];
      assert AssertsOf(log) + StreamOf(calls) == AssertsOf(log) + StreamOf(init) + Entries(c.facts, c.ctx.now);
      RisingStart(AssertsOf(log) + StreamOf(init), Entries(c.facts, c.ctx.now));
      StreamPrefix(log, init, n);
      assert init[..n] == calls[..n];
    }
  }

  lemma {:induction false} FromNothing(calls: seq<Call>)
    requires OpenCalls(calls) && Rising(StreamOf(calls))
    ensures Continues([], calls) && AssertsOf([]) + StreamOf(calls) == StreamOf(calls)
  {
    assert [] + StreamOf(calls) == StreamOf(calls);
  }

  /** The same from an empty store. */
  lemma {:induction false} SplitViews(calls: seq<Call>, e: string, vt: int)
    requires OpenCalls(calls) && Rising(StreamOf(calls))
    ensures EntityOf(RunCalls([], calls), e) == LastValues(StreamOf(calls), e)
    ensures EntityOf(AsOfValidOf(RunCalls([], calls), vt), e) == LastValues(UpTo(StreamOf(calls), vt), e)
    ensures forall i :: 0 <= i < |calls| ==>
              BuildAll(calls[i].mode, RunCalls([], calls[..i]), calls[i].facts, calls[i].ctx).Built?
  {
    hide RunCalls, BuildAll, EntityOf, LastValues, StreamOf, UpTo, Rising, Forward;
    FromNothing(calls);
    SplitViewsFrom([], calls, e, vt);
  }

  /** Two ways of cutting one stream give the same views, whatever log they continue. */
  lemma {:induction false} SplitsAgree(log: seq<Datom>, a: seq<Call>, b: seq<Call>, e: string, vt: int)
    requires Continues(log, a) && OpenCalls(b) && StreamOf(a) == StreamOf(b)
    ensures EntityOf(RunCalls(log, a), e) == EntityOf(RunCalls(log, b), e)
    ensures EntityOf(AsOfValidOf(RunCalls(log, a), vt), e) == EntityOf(AsOfValidOf(RunCalls(log, b), vt), e)
  {
    SplitViewsFrom(log, a, e, vt);
    SplitViewsFrom(log, b, e, vt);
  }

  // ---- What one accepted assert shows ---------------------------------------------

  /** The companion a call of one assert writes, if its lookup finds a prior. */
  function CompanionOf(log: seq<Datom>, f: Fact, ctx: Ctx): Option<Datom> {
    match FindPrior(log, f.e, f.a)
    case None => None
    case Some(prior) => Some(Companion(prior, ValidFromOf(f, ctx.now), ctx.now))
  }

  predicate ClosedBy(c: Option<Datom>, d: Datom) {
    c.Some? && Closes(c.value, d)
  }

  /** Neither the log nor the companion `c` closes the new assert `mine`, and they leave no later
      assert of its key open. */
  ghost predicate Prevails(log: seq<Datom>, c: Option<Datom>, mine: Datom) {
    && !Closed(log, mine) && !ClosedBy(c, mine)
    && forall d :: d in log && IsCandidate(log, d, mine.e, mine.a) && !ClosedBy(c, d) ==> d.validFrom <= mine.validFrom
  }

  function Appended(log: seq<Datom>, c: Option<Datom>, mine: Datom): seq<Datom> {
    match c
    case None => log + [mine]
    case Some(r) => log + [r, mine]
  }

  lemma {:induction false} ClosedAppend(log: seq<Datom>, c: Option<Datom>, mine: Datom, d: Datom)
    requires mine.op.Assert?
    ensures Closed(Appended(log, c, mine), d) <==> Closed(log, d) || ClosedBy(c, d)
  {
    var after := Appended(log, c, mine);
    if Closed(log, d) {
      var i :| 0 <= i < |log| && Closes(log[i], d);
      assert Closes(after[i], d);
    }
    if ClosedBy(c, d) {
      assert Closes(after[|log|], d);
    }
    if Closed(after, d) {
      var i :| 0 <= i < |after| && Closes(after[i], d);
      if i < |log| {
        assert Closes(log[i], d);
      }
    }
  }

  lemma {:induction false} AppendedShowsIff(log: seq<Datom>, c: Option<Datom>, mine: Datom)
    requires mine.op.Assert? && (c.Some? ==> c.value.op.Retract?) && forall d :: d in log ==> d.tx < mine.tx
    ensures var after := Appended(log, c, mine);
            var w := Latest(after, after, mine.e, mine.a);
            && (w == Some(mine) <==> Prevails(log, c, mine))
            && (w.Some? && w.value != mine ==> w.value in log)
  {
    hide Latest, Closes;
    var after := Appended(log, c, mine);
    var w := Latest(after, after, mine.e, mine.a);
    LatestIsMaximal(after, after, mine.e, mine.a);
    ClosedAppend(log, c, mine, mine);
    assert after[|after| - 1] == mine;
    if Prevails(log, c, mine) {
      assert IsCandidate(after, mine, mine.e, mine.a);
      if w.value != mine {
        ClosedAppend(log, c, mine, w.value);
        assert false;
      }
    }
    if w == Some(mine) {
      forall d | d in log && IsCandidate(log, d, mine.e, mine.a) && !ClosedBy(c, d)
        ensures d.validFrom <= mine.validFrom
      {
        ClosedAppend(log, c, mine, d);
        var i :| 0 <= i < |log| && log[i] == d;
        assert after[i] == d && IsCandidate(after, d, mine.e, mine.a);
      }
    }
  }

  /** What a call of one assert appends. */
  lemma {:induction false} OneAssertAppends(mode: Lookup, log: seq<Datom>, f: Fact, ctx: Ctx)
    requires f.op.Assert? && BuildAll(mode, log, [f], ctx).Built?
    ensures var tx, c := NextTx(log), CompanionOf(log, f, ctx);
            SameButMarks(Appended(log, if c.Some? then Some(WithTx(c.value, tx)) else None,
                                  WithTx(FactDatom(f, ctx), tx)),
                         LogAfter(mode, log, [f], ctx))
  {
    hide MarkAll, FindPrior, Bare, MaxTx, Companion, BuildUpTo, FactDatom;
    var tx, mine := NextTx(log), FactDatom(f, ctx);
    OneAssertDraft(mode, log, f, ctx);
    var d := BuildAll(mode, log, [f], ctx).draft;
    MarkAllKeepsRest(log + Stamped(d.datoms, tx), d.invalidations, tx);
  }

  lemma {:induction false} OneAssertDraft(mode: Lookup, log: seq<Datom>, f: Fact, ctx: Ctx)
    requires f.op.Assert? && BuildAll(mode, log, [f], ctx).Built?
    ensures BuildAll(mode, log, [f], ctx).draft.datoms ==
            match CompanionOf(log, f, ctx)
            case None => [FactDatom(f, ctx)]
            case Some(c) => [c, FactDatom(f, ctx)]
  {
    hide FindPrior, Companion, FactDatom;
    OneFactCallsAgree(f);
    SameSourcesAgree(log, [f], 1, ctx);
    assert log + [] == log;
    assert BuildUpTo(Scan, log, [f], 0, ctx) == Built(Draft([], []));
  }

  /** An accepted assert becomes what `entity` shows if and only if it prevails: no retract of the log
      and no companion of its own names it, and every assert of its key that they leave open takes
      effect no later than it does. Nothing is assumed of the log's present winner. */
  lemma {:induction false} OverwriteShowsIff(mode: Lookup, log: seq<Datom>, f: Fact, ctx: Ctx)
    requires f.op.Assert? && BuildAll(mode, log, [f], ctx).Built?
    ensures var after := LogAfter(mode, log, [f], ctx);
            var w := Latest(after, after, f.e, Bare(f.a));
            && ((w.Some? && w.value.tx == NextTx(log)) <==> Prevails(log, CompanionOf(log, f, ctx), FactDatom(f, ctx)))
            && (w.Some? && w.value.tx == NextTx(log) ==> w.value.v == f.v)
  {
    hide LogAfter, BuildUpTo, FindPrior, Bare, MaxTx, Latest, Companion;
    var tx, c, mine := NextTx(log), CompanionOf(log, f, ctx), FactDatom(f, ctx);
    var c' := if c.Some? then Some(WithTx(c.value, tx)) else None;
    var mine' := WithTx(mine, tx);
    var stamped, after := Appended(log, c', mine'), LogAfter(mode, log, [f], ctx);
    OneAssertAppends(mode, log, f, ctx);
    CompanionCloses(log, f, ctx);
    LatestIgnoresMarks(stamped, after, stamped, after, f.e, mine.a);
    AppendedShowsIff(log, c', mine');
    StampedPrevails(log, c, mine, tx);
    var w, w' := Latest(stamped, stamped, f.e, mine.a), Latest(after, after, f.e, mine.a);
    if w.Some? {
      assert w'.value.tx == w'.value.Erased().tx == w.value.Erased().tx == w.value.tx;
      assert w'.value.v == w'.value.Erased().v == w.value.Erased().v == w.value.v;
    }
  }

  lemma {:induction false} StampedPrevails(log: seq<Datom>, c: Option<Datom>, mine: Datom, tx: int)
    ensures Prevails(log, if c.Some? then Some(WithTx(c.value, tx)) else None, WithTx(mine, tx))
            <==> Prevails(log, c, mine)
  {
    var c', mine' := if c.Some? then Some(WithTx(c.value, tx)) else None, WithTx(mine, tx);
    assert forall d :: ClosedBy(c', d) == ClosedBy(c, d);
    assert forall r :: Closes(r, mine') == Closes(r, mine);
    assert Closed(log, mine') == Closed(log, mine) by {
      if i :| 0 <= i < |log| && Closes(log[i], mine) {
        assert Closes(log[i], mine');
      }
      if i :| 0 <= i < |log| && Closes(log[i], mine') {
        assert Closes(log[i], mine);
      }
    }
  }

  /** A companion is a retract; it closes the very assert it makes room for when that is no later than
      the prior and carries the same value. */
  lemma {:induction false} CompanionCloses(log: seq<Datom>, f: Fact, ctx: Ctx)
    ensures var c := CompanionOf(log, f, ctx);
            && (c.Some? ==> c.value.op.Retract? && c.value.e == f.e && c.value.a == f.a)
            && (c.Some? && IsBare(f.a) ==>
                  var prior := FindPrior(log, f.e, f.a).value;
                  ClosedBy(c, FactDatom(f, ctx)) <==>
                  ValidFromOf(f, ctx.now) <= prior.validFrom && Freeze(f.v) == Freeze(prior.v))
  {
    hide FindPrior, Bare;
    FindPriorFound(log, f.e, f.a);
  }

  /** A forced retroactive correction shows if and only if its value is not its prior's, no retract
      names it, and no open assert of its key takes effect later; the prior itself must therefore
      have been retracted. */
  lemma {:induction false} ForcedShowsIff(mode: Lookup, log: seq<Datom>, f: Fact, ctx: Ctx)
    requires f.op.Assert? && IsBare(f.a) && FindPrior(log, f.e, f.a).Some? && BuildAll(mode, log, [f], ctx).Built?
    requires ValidFromOf(f, ctx.now) < FindPrior(log, f.e, f.a).value.validFrom
    ensures var after := LogAfter(mode, log, [f], ctx);
            var w := Latest(after, after, f.e, f.a);
            var prior := FindPrior(log, f.e, f.a).value;
            && ((w.Some? && w.value.tx == NextTx(log)) <==>
                && Freeze(f.v) != Freeze(prior.v) && !Closed(log, FactDatom(f, ctx))
                && forall d :: d in log && IsCandidate(log, d, f.e, f.a) ==> d.validFrom <= ValidFromOf(f, ctx.now))
            && (w.Some? && w.value.tx == NextTx(log) ==> Closed(log, prior))
  {
    hide LogAfter, BuildUpTo, FindPrior, Bare, MaxTx, Latest;
    var prior := FindPrior(log, f.e, f.a).value;
    OverwriteShowsIff(mode, log, f, ctx);
    CompanionCloses(log, f, ctx);
    FindPriorFound(log, f.e, f.a);
    assert CompanionOf(log, f, ctx).value.validFrom == ValidFromOf(f, ctx.now);
    assert prior in log && (!Closed(log, prior) ==> IsCandidate(log, prior, f.e, f.a));
  }

  /** Where the prior is also what `entity` shows: the overwrite shows when it is later, or as late
      with another value; a forced retroactive one leaves the old value showing. */
  lemma {:induction false} OverwriteOfWinner(mode: Lookup, log: seq<Datom>, f: Fact, ctx: Ctx, prior: Datom)
    requires f.op.Assert? && IsBare(f.a)
    requires FindPrior(log, f.e, f.a) == Some(prior) && Latest(log, log, f.e, f.a) == Some(prior)
    requires BuildAll(mode, log, [f], ctx).Built?
    ensures var after := LogAfter(mode, log, [f], ctx);
            var vf := ValidFromOf(f, ctx.now);
            var w := Latest(after, after, f.e, f.a);
            (w.Some? && w.value.tx == NextTx(log)) <==>
              (!Closed(log, FactDatom(f, ctx)) &&
               (vf > prior.validFrom || (vf == prior.validFrom && Freeze(f.v) != Freeze(prior.v))))
    ensures ValidFromOf(f, ctx.now) < prior.validFrom ==>
              f.a in EntityOf(LogAfter(mode, log, [f], ctx), f.e)
              && EntityOf(LogAfter(mode, log, [f], ctx), f.e)[f.a] == prior.v
  {
    hide LogAfter, BuildUpTo, FindPrior, Bare, MaxTx, Latest;
    OverwriteShowsIff(mode, log, f, ctx);
    CompanionCloses(log, f, ctx);
    FindPriorFound(log, f.e, f.a);
    LatestIsMaximal(log, log, f.e, f.a);
    var vf, c := ValidFromOf(f, ctx.now), CompanionOf(log, f, ctx);
    if vf < prior.validFrom {
      assert !ClosedBy(c, prior);
      WinnerStays(mode, log, f, ctx, prior);
    }
  }

  lemma {:induction false} WinnerStays(mode: Lookup, log: seq<Datom>, f: Fact, ctx: Ctx, prior: Datom)
    requires f.op.Assert? && IsBare(f.a) && BuildAll(mode, log, [f], ctx).Built?
    requires FindPrior(log, f.e, f.a) == Some(prior) && Latest(log, log, f.e, f.a) == Some(prior)
    requires ValidFromOf(f, ctx.now) < prior.validFrom
    ensures f.a in EntityOf(LogAfter(mode, log, [f], ctx), f.e)
    ensures EntityOf(LogAfter(mode, log, [f], ctx), f.e)[f.a] == prior.v
  {
    hide LogAfter, BuildUpTo, FindPrior, Bare, MaxTx, Latest;
    var tx := NextTx(log);
    var c, mine := WithTx(CompanionOf(log, f, ctx).value, tx), WithTx(FactDatom(f, ctx), tx);
    var stamped, after := Appended(log, Some(c), mine), LogAfter(mode, log, [f], ctx);
    OneAssertAppends(mode, log, f, ctx);
    CompanionCloses(log, f, ctx);
    LatestSkipsRetract(log, c, mine, prior);
    LatestIgnoresMarks(stamped, after, stamped, after, f.e, f.a);
    EntityAt(after, f.e, f.a);
    var w' := Latest(after, after, f.e, f.a).value;
    assert w'.v == w'.Erased().v == prior.Erased().v == prior.v;
  }

  /** A companion that closes no candidate leaves the old winner in place of the new assert. */
  lemma {:induction false} LatestSkipsRetract(log: seq<Datom>, c: Datom, mine: Datom, prior: Datom)
    requires mine.op.Assert? && c.op.Retract? && mine.validFrom < prior.validFrom
    requires c.e == mine.e && c.a == mine.a && c.validFrom == mine.validFrom
    requires Latest(log, log, mine.e, mine.a) == Some(prior)
    ensures var after := Appended(log, Some(c), mine); Latest(after, after, mine.e, mine.a) == Some(prior)
  {
    var after := Appended(log, Some(c), mine);
    var m := log + [c];
    assert after[..|after| - 1] == m && m[..|m| - 1] == log;
    SameWinner(log, log, c, mine, prior);
  }

  lemma {:induction false} SameWinner(cands: seq<Datom>, log: seq<Datom>, c: Datom, mine: Datom, prior: Datom)
    requires mine.op.Assert? && c.op.Retract?
    requires c.e == mine.e && c.a == mine.a && c.validFrom == mine.validFrom < prior.validFrom
    requires Latest(cands, log, mine.e, mine.a) == Some(prior)
    ensures Latest(cands, Appended(log, Some(c), mine), mine.e, mine.a) == Some(prior)
  {
    var after := Appended(log, Some(c), mine);
    var init, d := cands[..|cands| - 1], cands[|cands| - 1];
    ClosedAppend(log, Some(c), mine, d);
    LatestIsMaximal(init, log, mine.e, mine.a);
    LatestIsMaximal(init, after, mine.e, mine.a);
    if Latest(init, log, mine.e, mine.a) == Some(prior) {
      SameWinner(init, log, c, mine, prior);
    } else {
      var w := Latest(init, after, mine.e, mine.a);
      if w.Some? {
        ClosedAppend(log, Some(c), mine, w.value);
      }
    }
  }

  // ---- History -------------------------------------------------------------------

  /** A call changes the past of the log only in its marks, and dates everything new at `now`. */
  lemma {:induction false} CallAppends(log: seq<Datom>, c: Call)
    ensures |log| <= |LogAfterCall(log, c)|
    ensures SameButMarks(LogAfterCall(log, c)[..|log|], log)
    ensures forall i :: |log| <= i < |LogAfterCall(log, c)| ==> LogAfterCall(log, c)[i].txTime == c.ctx.now
  {
    var b := BuildAll(c.mode, log, c.facts, c.ctx);
    if b.Built? && b.draft.datoms != [] {
      DraftDated(c.mode, log, c.facts, |c.facts|, c.ctx);
      var tx := NextTx(log);
      var appended := log + Stamped(b.draft.datoms, tx);
      MarkAllKeepsRest(appended, b.draft.invalidations, tx);
      var after := LogAfterCall(log, c);
      forall i | 0 <= i < |after| ensures after[i].Erased() == appended[i].Erased() {}
      forall i | |log| <= i < |after| ensures after[i].txTime == c.ctx.now {
        assert after[i].txTime == after[i].Erased().txTime == appended[i].Erased().txTime;
      }
    }
  }

  lemma {:induction false} DraftDated(mode: Lookup, log: seq<Datom>, facts: seq<Fact>, n: nat, ctx: Ctx)
    requires n <= |facts| && BuildUpTo(mode, log, facts, n, ctx).Built?
    ensures forall d :: d in BuildUpTo(mode, log, facts, n, ctx).draft.datoms ==>
             d.txTime == ctx.now && d.tx == TX_PLACEHOLDER
  {
    if n > 0 {
      DraftDated(mode, log, facts, n - 1, ctx);
    }
  }

  lemma {:induction false} AllLater(ds: seq<Datom>, t: int)
    requires forall i :: 0 <= i < |ds| ==> ds[i].txTime > t
    ensures AsOfOf(ds, t) == []
  {
    if ds != [] {
      AllLater(ds[..|ds| - 1], t);
    }
  }

  /** For every later run of calls whose clock readings exceed `t` (accepted, refused or forced,
      on any facts), the snapshot at `t` changes in its marks only and every entity in it reads
      the same. */
  lemma {:induction false} HistoryIsStable(log: seq<Datom>, calls: seq<Call>, t: int)
    requires forall i :: 0 <= i < |calls| ==> calls[i].ctx.now > t
    ensures SameButMarks(AsOfOf(RunCalls(log, calls), t), AsOfOf(log, t))
    ensures forall e :: EntityOf(AsOfOf(RunCalls(log, calls), t), e) == EntityOf(AsOfOf(log, t), e)
  {
    hide AsOfOf, LogAfterCall, EntityOf;
    if calls != [] {
      var init, c := calls[..|calls| - 1], calls[|calls| - 1];
      HistoryIsStable(log, init, t);
      var mid := RunCalls(log, init);
      var after := RunCalls(log, calls);
      CallAppends(mid, c);
      assert after == after[..|mid|] + after[|mid|..];
      AsOfConcat(after[..|mid|], after[|mid|..], t);
      AllLater(after[|mid|..], t);
      AsOfKeepsMarks(after[..|mid|], mid, t);
      SameMarksTrans(AsOfOf(after, t), AsOfOf(mid, t), AsOfOf(log, t));
    }
    forall e ensures EntityOf(AsOfOf(RunCalls(log, calls), t), e) == EntityOf(AsOfOf(log, t), e) {
      EntityIgnoresMarks(AsOfOf(RunCalls(log, calls), t), AsOfOf(log, t), e);
    }
  }

  lemma {:induction false} SameMarksTrans(a: seq<Datom>, b: seq<Datom>, c: seq<Datom>)
    requires SameButMarks(a, b) && SameButMarks(b, c)
    ensures SameButMarks(a, c)
  {
    forall i | 0 <= i < |a| ensures a[i].Erased() == c[i].Erased() {
      assert a[i].Erased() == b[i].Erased() && b[i].Erased() == c[i].Erased();
    }
  }
}
