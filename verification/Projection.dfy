/** The streamed projection cache (src/persistence/fact/projection.py). */
module Projection {
  import opened Wrappers
  import opened Datoms
  import opened Views
  import opened Transact
  import opened Runs

  /** The three dictionaries of `DictProjection`. */
  datatype State = State(
    entities: map<string, map<string, Value>>,
    retracts: set<(string, string, string, int)>,
    winning: map<Key, (int, int)>)
  {
    /** `get(e)`. */
    function Get(e: string): map<string, Value> {
      if e in entities then entities[e] else map[]
    }

    /** Attribute `a` of entity `e`, with the (valid_from, tx) recorded for it. */
    function Cell(e: string, a: string): (Option<Value>, Option<(int, int)>) {
      (if a in Get(e) then Some(Get(e)[a]) else None,
       if (e, a) in winning then Some(winning[(e, a)]) else None)
    }
  }

  const EMPTY: State := State(map[], {}, map[])

  /** `(vf, tx) > cur` on Python tuples. */
  predicate Beats(vf: int, tx: int, cur: (int, int)) {
    vf > cur.0 || (vf == cur.0 && tx > cur.1)
  }

  /** The state one streamed datom leaves. */
  function Streamed(s: State, d: Datom): State {
    var key := (d.e, d.a);
    match d.op
    case Retract =>
      var seen := s.(retracts := s.retracts + {(d.e, d.a, Freeze(d.v), d.validFrom)});
      if d.a in s.Get(d.e) && s.Get(d.e)[d.a] == d.v && key in s.winning && s.winning[key] == (d.validFrom, d.tx) then
        seen.(entities := s.entities[d.e := s.Get(d.e) - {d.a}], winning := s.winning - {key})
      else seen
    case Assert =>
      if key !in s.winning || Beats(d.validFrom, d.tx, s.winning[key]) then
        s.(entities := s.entities[d.e := s.Get(d.e)[d.a := d.v]], winning := s.winning[key := (d.validFrom, d.tx)])
      else s.(entities := s.entities[d.e := s.Get(d.e)])
  }

  function StreamAll(log: seq<Datom>): State {
    if log == [] then EMPTY else Streamed(StreamAll(log[..|log| - 1]), log[|log| - 1])
  }

  class DictProjection {
    var entities: map<string, map<string, Value>>
    var retracts: set<(string, string, string, int)>
    var winning: map<Key, (int, int)>

    constructor ()
      ensures Contents() == EMPTY
    {
      entities, retracts, winning := map[], {}, map[];
    }

    ghost function Contents(): State
      reads this
    {
      State(entities, retracts, winning)
    }

    method Reset()
      modifies this
      ensures Contents() == EMPTY
    {
      entities, retracts, winning := map[], {}, map[];
    }

    method Apply(d: Datom)
      modifies this
      ensures Contents() == Streamed(old(Contents()), d)
    {
      var key := (d.e, d.a);
      if d.op.Retract? {
        retracts := retracts + {(d.e, d.a, Freeze(d.v), d.validFrom)};
        if d.e in entities {
          var attrs := entities[d.e];
          if d.a in attrs && attrs[d.a] == d.v {
            if key in winning && winning[key] == (d.validFrom, d.tx) {
              entities := entities[d.e := attrs - {d.a}];
              winning := winning - {key};
            }
          }
        }
        return;
      }
      if d.e !in entities {
        entities := entities[d.e := map[]];
      }
      if key !in winning || Beats(d.validFrom, d.tx, winning[key]) {
        entities := entities[d.e := entities[d.e][d.a := d.v]];
        winning := winning[key := (d.validFrom, d.tx)];
      }
    }

    method Get(e: string) returns (attrs: map<string, Value>)
      ensures attrs == Contents().Get(e)
    {
      attrs := if e in entities then entities[e] else map[];
    }
  }

  /** `rebuild`: burn the cache down and stream the whole log into it. */
  method Rebuild(db: DB, adapter: DictProjection)
    modifies adapter
    ensures adapter.Contents() == StreamAll(db.store.log)
  {
    adapter.Reset();
    var log := db.store.log;
    for i := 0 to |log|
      invariant adapter.Contents() == StreamAll(log[..i])
    {
      adapter.Apply(log[i]);
      assert log[..i + 1][..i] == log[..i];
    }
    assert log[..|log|] == log;
  }

  /** Datom `i` is a retract of exactly this entity, attribute, frozen value and valid_from. */
  predicate RetractsAt(log: seq<Datom>, i: nat, k: (string, string, string, int))
    requires i < |log|
  {
    log[i].op == Retract && log[i].e == k.0 && log[i].a == k.1 && Freeze(log[i].v) == k.2 && log[i].validFrom == k.3
  }

  /** The set of retracts the cache keeps is that of the log. */
  lemma {:induction false} RetractsSeen(log: seq<Datom>, k: (string, string, string, int))
    ensures k in StreamAll(log).retracts <==> exists i :: 0 <= i < |log| && RetractsAt(log, i, k)
  {
    if log != [] {
      var n := |log| - 1;
      RetractsSeen(log[..n], k);
      assert forall i :: 0 <= i < n ==> (RetractsAt(log[..n], i, k) <==> RetractsAt(log, i, k));
      assert RetractsAt(log, n, k) <==>
             log[n].op.Retract? && k == (log[n].e, log[n].a, Freeze(log[n].v), log[n].validFrom);
    }
  }

  // ---- One cell ---------------------------------------------------------------------

  /** The cell the last assert of a key puts in the cache. */
  function Winner(d: Datom): (Option<Value>, Option<(int, int)>) {
    (Some(d.v), Some((d.validFrom, d.tx)))
  }

  /** A streamed datom touches no cell but its own. */
  lemma {:induction false} StreamedElsewhere(s: State, d: Datom, e: string, a: string)
    requires (e, a) != (d.e, d.a)
    ensures Streamed(s, d).Cell(e, a) == s.Cell(e, a)
  {}

  /** A streamed datom either wins its own cell, by a later valid_from or at the same one a higher tx, empties it, or
      leaves it. */
  lemma {:induction false} StreamedHere(s: State, d: Datom)
    ensures var before, after := s.Cell(d.e, d.a), Streamed(s, d).Cell(d.e, d.a);
      && (d.op.Assert? ==>
            match before.1
            case None => after == Winner(d)
            case Some(w) =>
              after == if d.validFrom > w.0 || (d.validFrom == w.0 && d.tx > w.1) then Winner(d) else before)
      && (d.op.Retract? ==> after == if before == (Some(d.v), Some((d.validFrom, d.tx))) then (None, None) else before)
  {}

  // ---- Steady logs -------------------------------------------------------------------

  /** The assert of (e, a) that is newest by (valid_from, tx), the last one among equals. */
  function TopIndex(log: seq<Datom>, e: string, a: string): (r: Option<nat>)
    ensures r.Some? ==> r.value < |log| && log[r.value].op.Assert? && log[r.value].e == e && log[r.value].a == a
    ensures forall k :: 0 <= k < |log| && log[k].op.Assert? && log[k].e == e && log[k].a == a ==>
              r.Some? && !Newer(log[k], log[r.value]) && (k > r.value ==> Newer(log[r.value], log[k]))
  {
    if log == [] then None
    else
      var d, r := log[|log| - 1], TopIndex(log[..|log| - 1], e, a);
      if d.op.Assert? && d.e == e && d.a == a && (r.None? || !Newer(log[r.value], d)) then Some(|log| - 1) else r
  }

  /** `r` names the key, the value, the valid_from and the transaction of `d`. */
  predicate Names(r: Datom, d: Datom) {
    r.op.Retract? && r.e == d.e && r.a == d.a && r.v == d.v && r.validFrom == d.validFrom && r.tx == d.tx
  }

  predicate Ties(c: Datom, d: Datom) {
    c.validFrom == d.validFrom && c.tx == d.tx
  }

  /** An assert that ties with the newest of its key comes right after a retract that names that one; and a
      retract that names the newest of its key comes right before an assert that is no older. */
  predicate SteadyAt(log: seq<Datom>, n: nat)
    requires n < |log|
  {
    var d := log[n];
    match TopIndex(log[..n], d.e, d.a)
    case None => true
    case Some(i) =>
      && (d.op.Assert? && Ties(d, log[i]) ==> n > 0 && Names(log[n - 1], log[i]))
      && (Names(d, log[i]) ==>
            && n + 1 < |log| && log[n + 1].op.Assert? && log[n + 1].e == d.e && log[n + 1].a == d.a
            && !Newer(d, log[n + 1]))
  }

  predicate Steady(log: seq<Datom>) {
    forall n :: 0 <= n < |log| ==> SteadyAt(log, n)
  }

  lemma {:induction false} TopSnoc(log: seq<Datom>, d: Datom, e: string, a: string)
    ensures TopIndex(log + [d], e, a) ==
            var r := TopIndex(log, e, a);
            if d.op.Assert? && d.e == e && d.a == a && (r.None? || !Newer(log[r.value], d)) then Some(|log|) else r
  {
    assert (log + [d])[..|log|] == log;
  }

  /** What the cell of (e, a) holds once `n` datoms of a steady log are streamed: the newest assert of its
      key, or nothing just after a retract that names that one. */
  function CellAfter(log: seq<Datom>, n: nat, e: string, a: string): (Option<Value>, Option<(int, int)>)
    requires n <= |log|
  {
    match TopIndex(log[..n], e, a)
    case None => (None, None)
    case Some(i) => if n > 0 && Names(log[n - 1], log[i]) then (None, None) else Winner(log[i])
  }

  lemma {:induction false} TopStep(log: seq<Datom>, n: nat, e: string, a: string)
    requires 0 < n <= |log|
    ensures var r, d := TopIndex(log[..n - 1], e, a), log[n - 1];
            TopIndex(log[..n], e, a) ==
            if d.op.Assert? && d.e == e && d.a == a && (r.None? || !Newer(log[r.value], d)) then Some(n - 1) else r
  {
    assert log[..n] == log[..n - 1] + [log[n - 1]];
    TopSnoc(log[..n - 1], log[n - 1], e, a);
  }

  /** A retract that names the newest assert is still waiting for its successor only at the end. */
  lemma {:induction false} NamedIsFollowed(log: seq<Datom>, n: nat, e: string, a: string)
    requires Steady(log) && 0 < n < |log|
    ensures var top := TopIndex(log[..n], e, a);
            top.Some? && Names(log[n - 1], log[top.value]) ==>
              && log[n].op.Assert? && log[n].e == e && log[n].a == a && !Newer(log[top.value], log[n])
  {
    hide TopIndex;
    assert SteadyAt(log, n - 1);
    TopStep(log, n, e, a);
  }

  lemma {:induction false} CellStep(log: seq<Datom>, n: nat, s: State, e: string, a: string)
    requires Steady(log) && 0 < n <= |log| && s.Cell(e, a) == CellAfter(log, n - 1, e, a)
    ensures Streamed(s, log[n - 1]).Cell(e, a) == CellAfter(log, n, e, a)
  {
    hide TopIndex, Streamed, Steady, State.Cell;
    var d := log[n - 1];
    TopStep(log, n, e, a);
    if n > 1 {
      NamedIsFollowed(log, n - 1, e, a);
    }
    if (d.e, d.a) != (e, a) {
      StreamedElsewhere(s, d, e, a);
    } else {
      StreamedHere(s, d);
      TiesFollow(log, n - 1);
    }
  }

  lemma {:induction false} TiesFollow(log: seq<Datom>, n: nat)
    requires Steady(log) && n < |log|
    ensures var d := log[n];
            var top := TopIndex(log[..n], d.e, d.a);
            top.Some? && d.op.Assert? && Ties(d, log[top.value]) ==> n > 0 && Names(log[n - 1], log[top.value])
  {
    hide TopIndex;
    assert SteadyAt(log, n);
  }

  lemma {:induction false} SteadyCells(log: seq<Datom>, n: nat, e: string, a: string)
    requires Steady(log) && n <= |log|
    ensures StreamAll(log[..n]).Cell(e, a) == CellAfter(log, n, e, a)
  {
    hide TopIndex, Streamed, Steady, CellAfter;
    if n == 0 {
      NoCell(log, e, a);
    } else {
      SteadyCells(log, n - 1, e, a);
      assert log[..n][..n - 1] == log[..n - 1];
      CellStep(log, n, StreamAll(log[..n - 1]), e, a);
    }
  }

  lemma {:induction false} NoCell(log: seq<Datom>, e: string, a: string)
    ensures CellAfter(log, 0, e, a) == (None, None)
  {}

  /** At the end of a steady log the cell holds the newest assert of its key. */
  lemma {:induction false} CellHoldsTop(log: seq<Datom>, e: string, a: string)
    requires Steady(log)
    ensures StreamAll(log).Cell(e, a) ==
            match TopIndex(log, e, a) case None => (None, None) case Some(i) => Winner(log[i])
  {
    hide TopIndex;
    assert log[..|log|] == log;
    SteadyCells(log, |log|, e, a);
    if log != [] {
      var n := |log| - 1;
      assert SteadyAt(log, n) && log == log[..n] + [log[n]];
      TopSnoc(log[..n], log[n], e, a);
    }
  }

  // ---- The cache against the recomputation -----------------------------------------

  /** In a steady log every assert that ties with the newest of its key, but that one, is closed. */
  lemma {:induction false} TiesAreClosed(log: seq<Datom>, n: nat, e: string, a: string, k: nat)
    requires Steady(log) && k < n <= |log| && log[k].op.Assert? && log[k].e == e && log[k].a == a
    requires var top := TopIndex(log[..n], e, a).value; k != top && Ties(log[k], log[top])
    ensures Closed(log, log[k])
    decreases n
  {
    hide TopIndex;
    var d := log[n - 1];
    assert SteadyAt(log, n - 1) && log[..n] == log[..n - 1] + [d];
    TopSnoc(log[..n - 1], d, e, a);
    var i := TopIndex(log[..n - 1], e, a).value;
    if k == i {
      assert Closes(log[n - 2], log[k]);
    } else {
      TiesAreClosed(log, n - 1, e, a, k);
    }
  }

  /** What `entity` shows of a key of a steady log, if nothing closes its newest assert. */
  lemma {:induction false} LatestIsTop(log: seq<Datom>, e: string, a: string)
    requires Steady(log)
    ensures match TopIndex(log, e, a)
            case None => Latest(log, log, e, a).None?
            case Some(i) => !Closed(log, log[i]) ==> Latest(log, log, e, a) == Some(log[i])
  {
    hide TopIndex, Steady;
    LatestIsMaximal(log, log, e, a);
    var w, top := Latest(log, log, e, a), TopIndex(log, e, a);
    assert top.Some? && !Closed(log, log[top.value]) ==> IsCandidate(log, log[top.value], e, a);
    if w.Some? {
      var k :| 0 <= k < |log| && log[k] == w.value;
      if !Closed(log, log[top.value]) && k != top.value {
        assert log[..|log|] == log;
        TiesAreClosed(log, |log|, e, a, k);
      }
    }
  }

  /** Attribute `a` of entity `e`, as `entity` recomputes it. */
  function Recomputed(log: seq<Datom>, e: string, a: string): Option<Value> {
    if a in EntityOf(log, e) then Some(EntityOf(log, e)[a]) else None
  }

  /** The cache mirrors `entity` on a key of a steady log if and only if the newest assert of the key is not
      closed, or the newest one still open carries the same value. The cache holds the newest value
      either way. */
  lemma {:induction false} CacheAgreesIff(log: seq<Datom>, e: string, a: string)
    requires Steady(log)
    ensures match TopIndex(log, e, a)
            case None => StreamAll(log).Cell(e, a).0 == Recomputed(log, e, a) == None
            case Some(i) =>
              && StreamAll(log).Cell(e, a).0 == Some(log[i].v)
              && (!Closed(log, log[i]) ==> Latest(log, log, e, a) == Some(log[i]))
              && (StreamAll(log).Cell(e, a).0 == Recomputed(log, e, a) <==>
                  var w := Latest(log, log, e, a);
                  !Closed(log, log[i]) || (w.Some? && w.value.v == log[i].v))
  {
    hide TopIndex, Steady, Latest, EntityOf, StreamAll;
    CellHoldsTop(log, e, a);
    LatestIsTop(log, e, a);
    EntityAt(log, e, a);
  }

  /** A forward log is steady, and its newest asserts are its last ones. */
  lemma {:induction false} ForwardIsSteady(log: seq<Datom>)
    requires Forward(log)
    ensures Steady(log)
  {
    hide TopIndex, AssertsOf;
    forall n | 0 <= n < |log| ensures SteadyAt(log, n) {
      var d := log[n];
      var top := TopIndex(log[..n], d.e, d.a);
      if top.Some? {
        if d.op.Assert? {
          RisingPair(log, top.value, n);
        } else if Names(d, log[top.value]) {
          assert PairedAt(log, n);
          RisingPair(log, top.value, n + 1);
        }
      }
    }
  }

  lemma {:induction false} TopOnForward(log: seq<Datom>, e: string, a: string)
    requires Forward(log)
    ensures TopIndex(log, e, a) == LastIndex(log, e, a)
  {
    hide TopIndex, LastIndex, AssertsOf;
    var top, last := TopIndex(log, e, a), LastIndex(log, e, a);
    if top.Some? && top != last {
      RisingPair(log, top.value, last.value);
    }
  }

  /** On a forward log the streamed cache reads, for every entity, exactly as `entity`
      recomputed from scratch. */
  lemma {:induction false} CacheMatchesEntity(log: seq<Datom>, e: string)
    requires Forward(log)
    ensures StreamAll(log).Get(e) == EntityOf(log, e)
  {
    hide TopIndex, LastIndex, EntityOf, StreamAll;
    ForwardIsSteady(log);
    var cached, shown := StreamAll(log).Get(e), EntityOf(log, e);
    forall a ensures (a in cached <==> a in shown) && (a in cached ==> cached[a] == shown[a]) {
      CacheAgreesIff(log, e, a);
      TopOnForward(log, e, a);
      if LastIndex(log, e, a).Some? {
        LastIsOpen(log, e, a, LastIndex(log, e, a).value);
      }
      assert StreamAll(log).Cell(e, a).0 == Recomputed(log, e, a);
    }
  }

  /** Hence after every run of open asserts that rises along each key, keys repeated inside one call included,
      whatever forward log it continues. */
  lemma {:induction false} CacheMatchesRun(log: seq<Datom>, calls: seq<Call>, e: string)
    requires Continues(log, calls)
    ensures StreamAll(RunCalls(log, calls)).Get(e) == EntityOf(RunCalls(log, calls), e)
    ensures StreamAll(RunCalls(log, calls)).Get(e) == LastValues(AssertsOf(log) + StreamOf(calls), e)
  {
    RunKeepsForward(log, calls);
    CacheMatchesEntity(RunCalls(log, calls), e);
    EntityOnForward(RunCalls(log, calls), e);
  }

  // ---- Explicit retracts -------------------------------------------------------------

  /** The last assert of (e, a) among the first `n` datoms that no retract of the log closes. */
  function LastOpen(log: seq<Datom>, n: nat, e: string, a: string): (r: Option<nat>)
    requires n <= |log|
    ensures r.Some? ==> r.value < n && IsCandidate(log, log[r.value], e, a)
    ensures forall k :: 0 <= k < n && IsCandidate(log, log[k], e, a) ==> r.Some? && k <= r.value
  {
    if n == 0 then None
    else if IsCandidate(log, log[n - 1], e, a) then Some(n - 1) else LastOpen(log, n - 1, e, a)
  }

  /** A retract `r` on a key takes the asserts it closes from what `entity` can show of it, and only those:
      the newest of the others shows; and if it does not close what shows, that keeps showing. */
  lemma {:induction false} RetractShows(log: seq<Datom>, r: Datom)
    requires r.op.Retract?
    ensures var w, before := Latest(log + [r], log + [r], r.e, r.a), Latest(log, log, r.e, r.a);
      && (w.Some? ==> && w.value in log && IsCandidate(log, w.value, r.e, r.a) && !Closes(r, w.value)
                      && forall d :: d in log && IsCandidate(log, d, r.e, r.a) && !Closes(r, d) ==> !Newer(d, w.value))
      && (w.None? <==> forall d :: d in log && IsCandidate(log, d, r.e, r.a) ==> Closes(r, d))
      && (before.Some? && !Closes(r, before.value) ==> w == before)
  {
    hide Latest, Closes, Closed;
    var after := log + [r];
    LatestIsMaximal(after, after, r.e, r.a);
    forall d ensures IsCandidate(after, d, r.e, r.a) <==> IsCandidate(log, d, r.e, r.a) && !Closes(r, d) {
      ClosedByOne(log, r, d);
    }
    RetractSkipped(log, r);
    if Latest(log, log, r.e, r.a).Some? && !Closes(r, Latest(log, log, r.e, r.a).value) {
      WinnerKept(log, log, r);
    }
  }

  lemma {:induction false} RetractSkipped(log: seq<Datom>, r: Datom)
    requires r.op.Retract?
    ensures Latest(log + [r], log + [r], r.e, r.a) == Latest(log, log + [r], r.e, r.a)
  {
    assert (log + [r])[..|log|] == log;
  }

  lemma {:induction false} WinnerKept(cands: seq<Datom>, log: seq<Datom>, r: Datom)
    requires Latest(cands, log, r.e, r.a).Some? && !Closes(r, Latest(cands, log, r.e, r.a).value)
    ensures Latest(cands, log + [r], r.e, r.a) == Latest(cands, log, r.e, r.a)
  {
    hide Closes, Closed;
    var init, d := cands[..|cands| - 1], cands[|cands| - 1];
    var w, was := Latest(init, log + [r], r.e, r.a), Latest(init, log, r.e, r.a);
    ClosedByOne(log, r, d);
    LatestIsMaximal(init, log, r.e, r.a);
    LatestIsMaximal(init, log + [r], r.e, r.a);
    if was.Some? && !Closes(r, was.value) {
      WinnerKept(init, log, r);
    }
    if w.Some? {
      ClosedByOne(log, r, w.value);
    }
  }

  /** A retract empties a key if and only if it closes every assert of the key still open. */
  lemma {:induction false} RetractEmptiesIff(log: seq<Datom>, r: Datom)
    requires r.op.Retract?
    ensures r.a !in EntityOf(log + [r], r.e) <==>
            forall d :: d in log && IsCandidate(log, d, r.e, r.a) ==> Closes(r, d)
  {
    hide Latest, Closes, EntityOf;
    RetractShows(log, r);
    EntityAt(log + [r], r.e, r.a);
  }

  /** A retract of a later transaction keeps a log steady. */
  lemma {:induction false} LaterRetractSteady(log: seq<Datom>, r: Datom)
    requires Steady(log) && r.op.Retract? && forall k :: 0 <= k < |log| ==> log[k].tx < r.tx
    ensures Steady(log + [r])
  {
    hide TopIndex;
    var after := log + [r];
    forall n | 0 <= n < |after| ensures SteadyAt(after, n) {
      assert after[..n] == log[..n];
      assert n < |log| ==> SteadyAt(log, n);
    }
  }

  /** The claimed mirroring of `entity` under explicit retracts. Whatever was retracted before, after a later
      retract on a key the cache keeps the newest value; cache and view agree on the key if and
      only if neither the log nor the retract closes it, or the newest one still open equals it. */
  lemma {:induction false} LaterRetractAgreesIff(log: seq<Datom>, r: Datom, i: nat)
    requires Steady(log) && r.op.Retract? && TopIndex(log, r.e, r.a) == Some(i)
    requires forall k :: 0 <= k < |log| ==> log[k].tx < r.tx
    ensures var after := log + [r];
            var w := Latest(after, after, r.e, r.a);
            && StreamAll(after).Cell(r.e, r.a).0 == Some(log[i].v)
            && (StreamAll(after).Cell(r.e, r.a).0 == Recomputed(after, r.e, r.a) <==>
                (!Closed(log, log[i]) && !Closes(r, log[i])) || (w.Some? && w.value.v == log[i].v))
  {
    hide TopIndex, Steady, Latest, EntityOf, StreamAll, Closes;
    LaterRetractSteady(log, r);
    TopSnoc(log, r, r.e, r.a);
    CacheAgreesIff(log + [r], r.e, r.a);
    ClosedByOne(log, r, log[i]);
  }

  /** On a forward log: exactly when the retract does not close the last value, or the last earlier value
      still open equals it. */
  lemma {:induction false} ExplicitRetractAgreesIff(log: seq<Datom>, r: Datom, i: nat)
    requires Forward(log) && r.op.Retract? && LastIndex(log, r.e, r.a) == Some(i)
    requires forall k :: 0 <= k < |log| ==> log[k].tx < r.tx
    ensures var after, k := log + [r], LastOpen(log, i, r.e, r.a);
            && StreamAll(after).Cell(r.e, r.a).0 == Some(log[i].v)
            && (StreamAll(after).Cell(r.e, r.a).0 == Recomputed(after, r.e, r.a) <==>
                !Closes(r, log[i]) || (k.Some? && log[k.value].v == log[i].v))
  {
    hide TopIndex, LastIndex, EntityOf, Latest, Closes, LastOpen, StreamAll, Steady;
    ForwardIsSteady(log);
    TopOnForward(log, r.e, r.a);
    LastIsOpen(log, r.e, r.a, i);
    LaterRetractAgreesIff(log, r, i);
    RetractOnForward(log, r, i);
  }

  /** What `entity` shows of a key once a retract `r` on it follows a forward log: the last value, if the
      retract does not close it; else the last earlier value still open. Supersession leaves such
      values behind: a prior that was invalidated together with a neighbour of its transaction gets no
      companion when it is overwritten (`UnseenPriorStaysOpen`). */
  lemma {:induction false} RetractOnForward(log: seq<Datom>, r: Datom, i: nat)
    requires Forward(log) && r.op.Retract? && LastIndex(log, r.e, r.a) == Some(i)
    ensures Latest(log + [r], log + [r], r.e, r.a) ==
            if !Closes(r, log[i]) then Some(log[i])
            else match LastOpen(log, i, r.e, r.a) case Some(k) => Some(log[k]) case None => None
  {
    hide LastIndex, AssertsOf, Closes;
    var after := log + [r];
    var w := Latest(after, after, r.e, r.a);
    LatestIsMaximal(after, after, r.e, r.a);
    LastIsOpen(log, r.e, r.a, i);
    var k := if !Closes(r, log[i]) then Some(i) else LastOpen(log, i, r.e, r.a);
    if k.Some? {
      StaysOpen(log, r, i, k.value);
      assert after[k.value] == log[k.value];
    }
    if w.Some? {
      var j :| 0 <= j < |after| && after[j] == w.value;
      assert j < |log|;
      ClosedByOne(log, r, log[j]);
      assert IsCandidate(log, log[j], r.e, r.a);
      assert j == i ==> !Closes(r, log[i]);
      assert k.Some? && j <= k.value;
      if j < k.value {
        RisingPair(log, j, k.value);
      }
    }
  }

  /** A retract closes at most one value of a rising key. */
  lemma {:induction false} StaysOpen(log: seq<Datom>, r: Datom, i: nat, k: nat)
    requires Forward(log) && i < |log| && k <= i && log[i].op.Assert? && log[i].e == r.e && log[i].a == r.a
    requires IsCandidate(log, log[k], r.e, r.a) && (k < i ==> Closes(r, log[i])) && (k == i ==> !Closes(r, log[i]))
    ensures IsCandidate(log + [r], log[k], r.e, r.a)
  {
    ClosedByOne(log, r, log[k]);
    if k < i {
      RisingPair(log, k, i);
    }
  }

  /** A retract passed to either transactor only appends itself. */
  lemma {:induction false} RetractAppends(mode: Lookup, log: seq<Datom>, f: Fact, ctx: Ctx)
    requires f.op.Retract?
    ensures LogAfter(mode, log, [f], ctx) == log + [WithTx(FactDatom(f, ctx), NextTx(log))]
  {
    hide MaxTx, Bare;
    assert BuildUpTo(mode, log, [f], 0, ctx) == Built(Draft([], []));
    assert BuildAll(mode, log, [f], ctx) == Built(Draft([FactDatom(f, ctx)], []));
  }

  /** Over-invalidation brings values back. When the last value of a key was invalidated, although nothing
      superseded it, an open assert after it gets no companion; a retract of that assert then shows
      the old value again. */
  lemma {:induction false} UnseenPriorStaysOpen(mode: Lookup, log: seq<Datom>, f: Fact, ctx: Ctx, i: nat, r: Datom)
    requires Forward(log) && f.op.Assert? && f.validTo.None? && LastIndex(log, f.e, Bare(f.a)) == Some(i)
    requires FindPrior(log, f.e, f.a).None? && log[i].validFrom < ValidFromOf(f, ctx.now)
    requires Closes(r, FactDatom(f, ctx))
    ensures var after := LogAfter(mode, log, [f], ctx) + [r];
            Bare(f.a) in EntityOf(after, f.e) && EntityOf(after, f.e)[Bare(f.a)] == log[i].v
  {
    hide LastIndex, AssertsOf, Bare, MaxTx, FindPrior, LogAfter, BuildUpTo, Rising, Latest, EntityOf;
    var mine := WithTx(FactDatom(f, ctx), NextTx(log));
    AssertIsAccepted(mode, log, f, ctx);
    OneAssertAppends(mode, log, f, ctx);
    var mid := log + [mine];
    var marked := LogAfter(mode, log, [f], ctx);
    assert CompanionOf(log, f, ctx).None? && Appended(log, None, mine) == mid;
    RisesByOne(log, EntryOfDatom(mine), i);
    AppendOne(log, mine, AssertsOf(log));
    LastIsOpen(log, f.e, Bare(f.a), i);
    LastSnoc(log, mine);
    BeforeIsOpen(log, mine, i);
    RetractOnForward(mid, r, |log|);
    assert SameButMarks(mid + [r], marked + [r]) by {
      forall k | 0 <= k < |mid + [r]| ensures (mid + [r])[k].Erased() == (marked + [r])[k].Erased() {
        assert k < |mid| ==> mid[k].Erased() == marked[k].Erased();
      }
    }
    EntityIgnoresMarks(mid + [r], marked + [r], f.e);
    EntityAt(mid + [r], f.e, Bare(f.a));
  }

  lemma {:induction false} AssertIsAccepted(mode: Lookup, log: seq<Datom>, f: Fact, ctx: Ctx)
    requires f.op.Assert? && FindPrior(log, f.e, f.a).None?
    ensures BuildAll(mode, log, [f], ctx).Built?
  {
    OneFactCallsAgree(f);
    SameSourcesAgree(log, [f], 1, ctx);
    assert log + [] == log;
    assert BuildUpTo(Scan, log, [f], 0, ctx) == Built(Draft([], []));
  }

  lemma {:induction false} RisesByOne(log: seq<Datom>, x: Entry, i: nat)
    requires Forward(log) && LastIndex(log, x.e, x.a) == Some(i) && log[i].validFrom < x.vf
    ensures Rising(AssertsOf(log) + [x])
  {
    hide LastIndex, AssertsOf;
    var s := AssertsOf(log);
    forall k | 0 <= k < |s| && s[k].e == x.e && s[k].a == x.a ensures s[k].vf < x.vf {
      AssertAt(log, s[k]);
      var p :| 0 <= p < |log| && log[p].op.Assert? && EntryOfDatom(log[p]) == s[k];
      if p < i {
        RisingPair(log, p, i);
      }
    }
  }

  lemma {:induction false} LastSnoc(log: seq<Datom>, d: Datom)
    requires d.op.Assert?
    ensures LastIndex(log + [d], d.e, d.a) == Some(|log|)
  {}

  /** The last value before an assert that came without a companion is the last one open. */
  lemma {:induction false} BeforeIsOpen(log: seq<Datom>, d: Datom, i: nat)
    requires LastIndex(log, d.e, d.a) == Some(i) && !Closed(log, log[i]) && d.op.Assert?
    ensures LastOpen(log + [d], |log|, d.e, d.a) == Some(i)
  {
    hide LastIndex;
    var mid := log + [d];
    assert mid[i] == log[i];
    ClosedAppend(log, None, d, log[i]);
    var r := LastOpen(mid, |log|, d.e, d.a);
    assert log[r.value] == mid[r.value];
  }

  lemma {:induction false} ClosedByOne(log: seq<Datom>, r: Datom, d: Datom)
    ensures Closed(log + [r], d) <==> Closed(log, d) || Closes(r, d)
  {
    var after := log + [r];
    if Closed(log, d) {
      var i :| 0 <= i < |log| && Closes(log[i], d);
      assert Closes(after[i], d);
    }
    if Closes(r, d) {
      assert Closes(after[|log|], d);
    }
    if Closed(after, d) {
      var i :| 0 <= i < |after| && Closes(after[i], d);
      assert i < |log| ==> Closes(log[i], d);
    }
  }
}
