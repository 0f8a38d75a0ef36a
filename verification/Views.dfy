/** DBView and the time slices of the log (src/persistence/fact/db.py:470-482, 538-541, 927-972). */
module Views {
  import opened Wrappers
  import opened Datoms

  function AsOfOf(log: seq<Datom>, t: int): seq<Datom> {
    if log == [] then []
    else
      var d := log[|log| - 1];
      AsOfOf(log[..|log| - 1], t) + if d.txTime <= t then [d] else []
  }

  predicate ValidAt(d: Datom, vt: int) {
    d.op.Assert? && d.validFrom <= vt && (d.validTo.None? || vt < d.validTo.value)
  }

  function AsOfValidOf(log: seq<Datom>, vt: int): seq<Datom> {
    if log == [] then []
    else
      var d := log[|log| - 1];
      AsOfValidOf(log[..|log| - 1], vt) + if ValidAt(d, vt) then [d] else []
  }

  /** A retract in the view matches the assert's (e, a, v, valid_from). */
  predicate Closes(r: Datom, d: Datom) {
    r.op.Retract? && r.e == d.e && r.a == d.a && Freeze(r.v) == Freeze(d.v) && r.validFrom == d.validFrom
  }

  predicate Closed(view: seq<Datom>, d: Datom) {
    exists i :: 0 <= i < |view| && Closes(view[i], d)
  }

  predicate Newer(d: Datom, cur: Datom) {
    d.validFrom > cur.validFrom || (d.validFrom == cur.validFrom && d.tx > cur.tx)
  }

  predicate IsCandidate(view: seq<Datom>, d: Datom, e: string, a: string) {
    d.op.Assert? && d.e == e && d.a == a && !Closed(view, d)
  }

  /** The winning assert for (e, a) among `cands`, closed asserts of `view` excluded. */
  function Latest(cands: seq<Datom>, view: seq<Datom>, e: string, a: string): Option<Datom> {
    if cands == [] then None
    else
      var prev := Latest(cands[..|cands| - 1], view, e, a);
      var d := cands[|cands| - 1];
      if IsCandidate(view, d, e, a) && (prev.None? || Newer(d, prev.value)) then Some(d) else prev
  }

  function Attrs(view: seq<Datom>): set<string> {
    set i | 0 <= i < |view| :: view[i].a
  }

  function EntityOf(view: seq<Datom>, e: string): map<string, Value> {
    map a | a in Attrs(view) && Latest(view, view, e, a).Some? :: Latest(view, view, e, a).value.v
  }

  /** The documented projection rule: an open assert that no other open assert of the
      same key beats by (valid_from, tx); absent exactly when every assert is closed. */
  lemma {:induction false} LatestIsMaximal(cands: seq<Datom>, view: seq<Datom>, e: string, a: string)
    ensures var r := Latest(cands, view, e, a);
      && (r.Some? ==> r.value in cands && IsCandidate(view, r.value, e, a)
                      && forall c :: c in cands && IsCandidate(view, c, e, a) ==> !Newer(c, r.value))
      && (r.None? <==> forall c :: c in cands ==> !IsCandidate(view, c, e, a))
  {
    if cands != [] {
      var init := cands[..|cands| - 1];
      LatestIsMaximal(init, view, e, a);
      assert cands == init + [cands[|cands| - 1]];
    }
  }

  lemma {:induction false} EntityAt(view: seq<Datom>, e: string, a: string)
    ensures a in EntityOf(view, e) <==> Latest(view, view, e, a).Some?
    ensures a in EntityOf(view, e) ==> EntityOf(view, e)[a] == Latest(view, view, e, a).value.v
  {
    LatestIsMaximal(view, view, e, a);
    if Latest(view, view, e, a).Some? {
      var d := Latest(view, view, e, a).value;
      var i :| 0 <= i < |view| && view[i] == d;
      assert view[i].a in Attrs(view);
    }
  }

  /** Datom `i` of the view is an assert for (e, a) that no retract of the view names by value and valid_from. */
  predicate OpenAt(view: seq<Datom>, i: nat, e: string, a: string)
    requires i < |view|
  {
    && view[i].op == Assert && view[i].e == e && view[i].a == a
    && forall j :: 0 <= j < |view| && view[j].op == Retract && view[j].e == e && view[j].a == a ==>
         view[j].validFrom != view[i].validFrom || Freeze(view[j].v) != Freeze(view[i].v)
  }

  /** Datom `i` comes before datom `j` in the choice of what to show: later valid_from, then higher tx, then
      first in the view. */
  predicate Precedes(view: seq<Datom>, i: nat, j: nat)
    requires i < |view| && j < |view|
  {
    || view[j].validFrom < view[i].validFrom
    || (view[j].validFrom == view[i].validFrom && (view[j].tx < view[i].tx || (view[j].tx == view[i].tx && i <= j)))
  }

  lemma {:induction false} OpenIsCandidate(view: seq<Datom>, i: nat, e: string, a: string)
    requires i < |view|
    ensures OpenAt(view, i, e, a) <==> IsCandidate(view, view[i], e, a)
  {
    if OpenAt(view, i, e, a) {
      forall j | 0 <= j < |view| ensures !Closes(view[j], view[i]) {}
    }
    if IsCandidate(view, view[i], e, a) {
      forall j | 0 <= j < |view| && view[j].op == Retract && view[j].e == e && view[j].a == a
        ensures view[j].validFrom != view[i].validFrom || Freeze(view[j].v) != Freeze(view[i].v)
      {
        assert !Closes(view[j], view[i]);
      }
    }
  }

  lemma {:induction false} LatestPrecedes(view: seq<Datom>, n: nat, e: string, a: string)
    requires n <= |view|
    ensures var r := Latest(view[..n], view, e, a);
      && (r.None? <==> forall j :: 0 <= j < n ==> !OpenAt(view, j, e, a))
      && (r.Some? ==> exists i :: 0 <= i < n && view[i] == r.value && OpenAt(view, i, e, a)
                        && forall j :: 0 <= j < n && OpenAt(view, j, e, a) ==> Precedes(view, i, j))
  {
    hide OpenAt, IsCandidate;
    if n > 0 {
      LatestPrecedes(view, n - 1, e, a);
      assert view[..n][..n - 1] == view[..n - 1];
      OpenIsCandidate(view, n - 1, e, a);
    }
  }

  /** The documented projection rule in full: an attribute shows exactly when some assert for it is open, and
      what it shows is the value of the open assert that precedes all others. */
  lemma {:induction false} ProjectionRule(view: seq<Datom>, e: string, a: string)
    ensures var m := EntityOf(view, e);
      && (a in m <==> exists i :: 0 <= i < |view| && OpenAt(view, i, e, a))
      && (a in m ==> exists i :: 0 <= i < |view| && OpenAt(view, i, e, a) && m[a] == view[i].v
                       && forall j :: 0 <= j < |view| && OpenAt(view, j, e, a) ==> Precedes(view, i, j))
  {
    hide OpenAt, Latest;
    EntityAt(view, e, a);
    LatestPrecedes(view, |view|, e, a);
    assert view[..|view|] == view;
  }

  /** `entity` does not look at `invalidated_by`. */
  lemma {:induction false} LatestIgnoresMarks(c1: seq<Datom>, c2: seq<Datom>, v1: seq<Datom>, v2: seq<Datom>,
                                              e: string, a: string)
    requires SameButMarks(c1, c2) && SameButMarks(v1, v2)
    ensures Latest(c1, v1, e, a).Some? == Latest(c2, v2, e, a).Some?
    ensures Latest(c1, v1, e, a).Some? ==>
              Latest(c1, v1, e, a).value.Erased() == Latest(c2, v2, e, a).value.Erased()
    decreases |c1|
  {
    if c1 != [] {
      var d1, d2 := c1[|c1| - 1], c2[|c2| - 1];
      LatestIgnoresMarks(c1[..|c1| - 1], c2[..|c2| - 1], v1, v2, e, a);
      ClosedIgnoresMarks(v1, v2, d1, d2);
    }
  }

  lemma {:induction false} ClosedIgnoresMarks(v1: seq<Datom>, v2: seq<Datom>, d1: Datom, d2: Datom)
    requires SameButMarks(v1, v2) && d1.Erased() == d2.Erased()
    ensures Closed(v1, d1) == Closed(v2, d2)
  {
    forall i | 0 <= i < |v1| ensures Closes(v1[i], d1) == Closes(v2[i], d2) {
      assert v1[i].Erased() == v2[i].Erased();
    }
    if Closed(v1, d1) {
      var i :| 0 <= i < |v1| && Closes(v1[i], d1);
      assert Closes(v2[i], d2);
    }
    if Closed(v2, d2) {
      var i :| 0 <= i < |v2| && Closes(v2[i], d2);
      assert Closes(v1[i], d1);
    }
  }

  lemma {:induction false} EntityIgnoresMarks(v1: seq<Datom>, v2: seq<Datom>, e: string)
    requires SameButMarks(v1, v2)
    ensures EntityOf(v1, e) == EntityOf(v2, e)
  {
    forall a ensures (a in EntityOf(v1, e) <==> a in EntityOf(v2, e))
                  && (a in EntityOf(v1, e) ==> EntityOf(v1, e)[a] == EntityOf(v2, e)[a])
    {
      EntityAt(v1, e, a);
      EntityAt(v2, e, a);
      LatestIgnoresMarks(v1, v2, v1, v2, e, a);
      if Latest(v1, v1, e, a).Some? {
        var w1, w2 := Latest(v1, v1, e, a).value, Latest(v2, v2, e, a).value;
        assert w1.v == w1.Erased().v == w2.Erased().v == w2.v;
      }
    }
  }

  lemma {:induction false} AsOfKeepsMarks(l1: seq<Datom>, l2: seq<Datom>, t: int)
    requires SameButMarks(l1, l2)
    ensures SameButMarks(AsOfOf(l1, t), AsOfOf(l2, t))
    decreases |l1|
  {
    if l1 != [] {
      AsOfKeepsMarks(l1[..|l1| - 1], l2[..|l2| - 1], t);
      assert l1[|l1| - 1].Erased() == l2[|l2| - 1].Erased();
    }
  }

  lemma {:induction false} AsOfConcat(l1: seq<Datom>, l2: seq<Datom>, t: int)
    ensures AsOfOf(l1 + l2, t) == AsOfOf(l1, t) + AsOfOf(l2, t)
    decreases |l2|
  {
    if l2 == [] {
      assert l1 + l2 == l1;
    } else {
      var last := |l2| - 1;
      assert (l1 + l2)[..|l1 + l2| - 1] == l1 + l2[..last];
      AsOfConcat(l1, l2[..last], t);
    }
  }

  /** A snapshot slice is itself a slice: later cut-offs keep earlier ones. */
  lemma {:induction false} AsOfNested(log: seq<Datom>, t: int, u: int)
    requires t <= u
    ensures AsOfOf(AsOfOf(log, u), t) == AsOfOf(log, t)
  {
    if log != [] {
      var d := log[|log| - 1];
      AsOfNested(log[..|log| - 1], t, u);
      AsOfConcat(AsOfOf(log[..|log| - 1], u), if d.txTime <= u then [d] else [], t);
    }
  }

  lemma {:induction false} SlicesSnoc(init: seq<Datom>, d: Datom, t: int)
    ensures AsOfOf(init + [d], t) == AsOfOf(init, t) + if d.txTime <= t then [d] else []
    ensures SinceOf(init + [d], t) == SinceOf(init, t) + if d.txTime > t then [d] else []
  {
    assert (init + [d])[..|init|] == init;
  }

  lemma {:induction false} NoSlices(t: int)
    ensures AsOfOf([], t) == SinceOf([], t) == []
  {}

  /** `as_of` and `since` split the log at t. */
  lemma {:induction false} AsOfSincePartition(log: seq<Datom>, t: int)
    ensures multiset(AsOfOf(log, t)) + multiset(SinceOf(log, t)) == multiset(log)
  {
    hide AsOfOf, SinceOf;
    if log == [] {
      NoSlices(t);
    } else {
      var init, d := log[..|log| - 1], log[|log| - 1];
      AsOfSincePartition(init, t);
      AsOfSinceStep(init, d, t);
      assert log == init + [d];
    }
  }

  lemma {:induction false} AsOfSinceStep(init: seq<Datom>, d: Datom, t: int)
    requires multiset(AsOfOf(init, t)) + multiset(SinceOf(init, t)) == multiset(init)
    ensures multiset(AsOfOf(init + [d], t)) + multiset(SinceOf(init + [d], t)) == multiset(init + [d])
  {
    hide AsOfOf, SinceOf;
    SlicesSnoc(init, d, t);
  }

  /** A filtered slice of the log. */
  datatype DBView = DBView(datoms: seq<Datom>)

  function CandidatesOf(ds: seq<Datom>, e: string): seq<Datom> {
    if ds == [] then []
    else
      var d := ds[|ds| - 1];
      CandidatesOf(ds[..|ds| - 1], e) + if d.e == e && d.op.Assert? then [d] else []
  }

  lemma {:induction false} LatestOfCandidates(ds: seq<Datom>, view: seq<Datom>, e: string, a: string)
    ensures Latest(CandidatesOf(ds, e), view, e, a) == Latest(ds, view, e, a)
  {
    if ds != [] {
      var d := ds[|ds| - 1];
      var rest := CandidatesOf(ds[..|ds| - 1], e);
      LatestOfCandidates(ds[..|ds| - 1], view, e, a);
      if d.e == e && d.op.Assert? {
        assert CandidatesOf(ds, e) == rest + [d];
        assert (rest + [d])[..|rest + [d]| - 1] == rest;
      } else {
        assert CandidatesOf(ds, e) == rest;
      }
    }
  }

  lemma {:induction false} CandidatesAreAsserts(ds: seq<Datom>, e: string)
    ensures forall c :: c in CandidatesOf(ds, e) ==> c in ds && c.e == e && c.op.Assert?
  {
    if ds != [] {
      CandidatesAreAsserts(ds[..|ds| - 1], e);
    }
  }

  function RetractKey(r: Datom): (string, string, int) {
    (r.a, Freeze(r.v), r.validFrom)
  }

  function RetractKeysOf(ds: seq<Datom>, e: string): set<(string, string, int)> {
    if ds == [] then {}
    else
      var d := ds[|ds| - 1];
      RetractKeysOf(ds[..|ds| - 1], e) + if d.e == e && d.op.Retract? then {RetractKey(d)} else {}
  }

  lemma {:induction false} RetractKeysAreClosings(ds: seq<Datom>, d: Datom)
    ensures RetractKey(d) in RetractKeysOf(ds, d.e) <==> Closed(ds, d)
  {
    if ds != [] {
      var init, last := ds[..|ds| - 1], ds[|ds| - 1];
      RetractKeysAreClosings(init, d);
      if Closed(init, d) {
        var i :| 0 <= i < |init| && Closes(init[i], d);
        assert Closes(ds[i], d);
      }
      if Closed(ds, d) && !Closes(last, d) {
        var i :| 0 <= i < |ds| && Closes(ds[i], d);
        assert Closes(init[i], d);
      }
    }
  }

  /** Materializes entity `e` from the slice. */
  method Entity(view: DBView, e: string) returns (attrs: map<string, Value>)
    ensures attrs == EntityOf(view.datoms, e)
  {
    var ds := view.datoms;
    var retracts: set<(string, string, int)> := {};
    var candidates: seq<Datom> := [];
    for i := 0 to |ds|
      invariant candidates == CandidatesOf(ds[..i], e)
      invariant retracts == RetractKeysOf(ds[..i], e)
    {
      var d := ds[i];
      assert ds[..i + 1][..i] == ds[..i];
      if d.e == e {
        match d.op
        case Retract => retracts := retracts + {RetractKey(d)};
        case Assert => candidates := candidates + [d];
      }
    }
    assert ds[..|ds|] == ds;
    var latest := PickLatest(candidates, retracts, ds, e);
    attrs := map a | a in latest :: latest[a].v;
    EntityFromLatest(ds, e, latest);
  }

  /** The second pass: newest open candidate per attribute. */
  method PickLatest(candidates: seq<Datom>, retracts: set<(string, string, int)>, ghost view: seq<Datom>, e: string)
    returns (latest: map<string, Datom>)
    requires candidates == CandidatesOf(view, e) && retracts == RetractKeysOf(view, e)
    ensures forall a :: (if a in latest then Some(latest[a]) else None) == Latest(candidates, view, e, a)
  {
    latest := map[];
    CandidatesAreAsserts(view, e);
    for j := 0 to |candidates|
      invariant forall a :: (if a in latest then Some(latest[a]) else None) == Latest(candidates[..j], view, e, a)
    {
      var d := candidates[j];
      assert candidates[..j + 1][..j] == candidates[..j];
      RetractKeysAreClosings(view, d);
      if RetractKey(d) !in retracts && (d.a !in latest || Newer(d, latest[d.a])) {
        latest := latest[d.a := d];
      }
    }
    assert candidates[..|candidates|] == candidates;
  }

  lemma {:induction false} EntityFromLatest(view: seq<Datom>, e: string, latest: map<string, Datom>)
    requires forall a :: (if a in latest then Some(latest[a]) else None) == Latest(CandidatesOf(view, e), view, e, a)
    ensures (map a | a in latest :: latest[a].v) == EntityOf(view, e)
  {
    var attrs := map a | a in latest :: latest[a].v;
    forall a ensures (a in attrs <==> a in EntityOf(view, e)) && (a in attrs ==> attrs[a] == EntityOf(view, e)[a]) {
      LatestOfCandidates(view, view, e, a);
      EntityAt(view, e, a);
    }
  }

  /** `as_of_valid`: the asserts whose interval holds `vt`. */
  method AsOfValid(log: seq<Datom>, vt: int) returns (view: DBView)
    ensures view == DBView(AsOfValidOf(log, vt))
  {
    var out: seq<Datom> := [];
    for i := 0 to |log|
      invariant out == AsOfValidOf(log[..i], vt)
    {
      var d := log[i];
      assert log[..i + 1][..i] == log[..i];
      if !d.op.Assert? {
        continue;
      }
      if d.validFrom > vt {
        continue;
      }
      if d.validTo.Some? && vt >= d.validTo.value {
        continue;
      }
      out := out + [d];
    }
    assert log[..|log|] == log;
    view := DBView(out);
  }

  /** The valid-time slice in its declarative form: the asserts of the log that take effect by `vt` and, where
      they end, end after it; no others. */
  lemma {:induction false} AsOfValidMembers(log: seq<Datom>, vt: int, d: Datom)
    ensures d in AsOfValidOf(log, vt) <==>
            d in log && d.op == Assert && d.validFrom <= vt && (d.validTo == None || vt < d.validTo.GetOr(vt))
  {
    if log != [] {
      AsOfValidMembers(log[..|log| - 1], vt, d);
      assert log == log[..|log| - 1] + [log[|log| - 1]];
    }
  }

  /** Of two asserts on [a, b) and [b, c) the slice at `vt` holds the first up to b, the second from b on
      and neither from c on: exactly one of them at every time from a up to c. */
  lemma {:induction false} AdjacentIntervals(log: seq<Datom>, d1: Datom, d2: Datom, vt: int)
    requires d1 in log && d2 in log && d1.op.Assert? && d2.op.Assert?
    requires d1.validTo == Some(d2.validFrom) && d2.validTo.Some?
    requires d1.validFrom < d2.validFrom < d2.validTo.value
    ensures var s := AsOfValidOf(log, vt);
            && (d1.validFrom <= vt < d2.validTo.value <==> (d1 in s) != (d2 in s))
            && !(d1 in s && d2 in s)
            && (d1 in s <==> d1.validFrom <= vt < d2.validFrom)
  {
    AsOfValidMembers(log, vt, d1);
    AsOfValidMembers(log, vt, d2);
  }

  /** What an entity of the slice shows: the value of the assert of the key that covers `vt`, the latest by
      (valid_from, tx) where several do, and nothing where none does. */
  lemma {:induction false} ValidTimeShows(log: seq<Datom>, vt: int, e: string, a: string)
    ensures var m := EntityOf(AsOfValidOf(log, vt), e);
            && (a in m <==> exists d :: d in log && Covers(d, vt, e, a))
            && (a in m ==> exists d :: d in log && Covers(d, vt, e, a) && m[a] == d.v
                             && forall c :: c in log && Covers(c, vt, e, a) ==>
                                  c.validFrom < d.validFrom || (c.validFrom == d.validFrom && c.tx <= d.tx))
  {
    hide AsOfValidOf, Latest;
    var s := AsOfValidOf(log, vt);
    EntityAt(s, e, a);
    LatestIsMaximal(s, s, e, a);
    forall d ensures d in s && IsCandidate(s, d, e, a) <==> d in log && Covers(d, vt, e, a) {
      AsOfValidMembers(log, vt, d);
      NothingCloses(log, vt, d);
    }
  }

  /** An assert for (e, a) whose interval, closed below and open above, holds `vt`. */
  predicate Covers(d: Datom, vt: int, e: string, a: string) {
    d.op == Assert && d.e == e && d.a == a && d.validFrom <= vt && (d.validTo.Some? ==> d.validTo.value > vt)
  }

  lemma {:induction false} NothingCloses(log: seq<Datom>, vt: int, d: Datom)
    ensures !Closed(AsOfValidOf(log, vt), d)
  {
    var s := AsOfValidOf(log, vt);
    forall i | 0 <= i < |s| ensures !Closes(s[i], d) {
      AsOfValidMembers(log, vt, s[i]);
    }
  }

  /** The slices keep the order of the log: each is the slices of two parts one after the other. */
  lemma {:induction false} SlicesInOrder(l1: seq<Datom>, l2: seq<Datom>, t: int)
    ensures AsOfOf(l1 + l2, t) == AsOfOf(l1, t) + AsOfOf(l2, t)
    ensures SinceOf(l1 + l2, t) == SinceOf(l1, t) + SinceOf(l2, t)
    ensures AsOfValidOf(l1 + l2, t) == AsOfValidOf(l1, t) + AsOfValidOf(l2, t)
  {
    AsOfConcat(l1, l2, t);
    SinceConcat(l1, l2, t);
    ValidConcat(l1, l2, t);
  }

  lemma {:induction false} SinceConcat(l1: seq<Datom>, l2: seq<Datom>, t: int)
    ensures SinceOf(l1 + l2, t) == SinceOf(l1, t) + SinceOf(l2, t)
    decreases |l2|
  {
    if l2 == [] {
      assert l1 + l2 == l1;
    } else {
      var last := |l2| - 1;
      assert (l1 + l2)[..|l1 + l2| - 1] == l1 + l2[..last];
      SinceConcat(l1, l2[..last], t);
    }
  }

  lemma {:induction false} ValidConcat(l1: seq<Datom>, l2: seq<Datom>, vt: int)
    ensures AsOfValidOf(l1 + l2, vt) == AsOfValidOf(l1, vt) + AsOfValidOf(l2, vt)
    decreases |l2|
  {
    if l2 == [] {
      assert l1 + l2 == l1;
    } else {
      var last := |l2| - 1;
      assert (l1 + l2)[..|l1 + l2| - 1] == l1 + l2[..last];
      ValidConcat(l1, l2[..last], vt);
    }
  }

  /** A datom is in `as_of(t)` exactly when it was recorded by `t`, and in `since(t)` exactly when later. */
  lemma {:induction false} SliceMembers(log: seq<Datom>, t: int, d: Datom)
    ensures d in AsOfOf(log, t) <==> d in log && d.txTime <= t
    ensures d in SinceOf(log, t) <==> d in log && d.txTime > t
  {
    if log != [] {
      SliceMembers(log[..|log| - 1], t, d);
      assert log == log[..|log| - 1] + [log[|log| - 1]];
    }
  }
}
