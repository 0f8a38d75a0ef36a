/** Datoms, facts and the in-memory log they live in
    (src/persistence/fact/datom.py and src/persistence/fact/store.py). */
module Datoms {
  import opened Wrappers

  /** A fact value. Hashable values are compared as they are; containers are
      compared by their canonical JSON text (`_freeze`). */
  datatype Value = Hashable(text: string) | Container(json: string)

  /** `_freeze`: not injective, a container may collide with the string that spells it. */
  function Freeze(v: Value): string {
    match v
    case Hashable(t) => t
    case Container(j) => j
  }

  /** (e, a). */
  type Key = (string, string)

  datatype Op = Assert | Retract

  /** A fact dict as the caller passes it to `transact`. The attribute is raw:
      it may still carry leading colons. */
  datatype Fact = Fact(e: string, a: string, v: Value, validFrom: Option<int>, validTo: Option<int>, op: Op)

  /** Provenance: the caller's dict, the fact the prompt hash was taken of, and the
      superseding transaction a companion retract names. */
  datatype Provenance = Provenance(base: string, promptOf: Option<Fact>, supersededBy: Option<int>)

  datatype Datom = Datom(
    e: string, a: string, v: Value, tx: int, txTime: int,
    validFrom: int, validTo: Option<int>, op: Op,
    prov: Provenance, invalidatedBy: Option<int>)
  {
    /** Open-interval, non-invalidated assert: what auto-retraction looks for. */
    predicate Live() {
      op.Assert? && invalidatedBy.None? && validTo.None?
    }

    /** The same datom with the invalidation pointer cleared. */
    function Erased(): Datom {
      this.(invalidatedBy := None)
    }
  }

  predicate IsBare(a: string) {
    a == "" || a[0] != ':'
  }

  /** `a.lstrip(":")`, applied by every Datom construction. */
  function Bare(a: string): (r: string)
    ensures IsBare(r)
    ensures IsBare(a) <==> r == a
  {
    if IsBare(a) then a else Bare(a[1..])
  }

  /** `bare` is `a` without its leading colons, all of them and nothing else. */
  predicate StripsColons(a: string, bare: string) {
    && |bare| <= |a| && a[|a| - |bare|..] == bare
    && (forall i :: 0 <= i < |a| - |bare| ==> a[i] == ':')
    && (bare == "" || bare[0] != ':')
  }

  lemma {:induction false} BareStrips(a: string)
    ensures StripsColons(a, Bare(a))
  {
    if !IsBare(a) {
      var rest, bare := a[1..], Bare(a);
      BareStrips(rest);
      hide Bare;
      forall i | 0 <= i < |a| - |bare| ensures a[i] == ':' {
        assert i > 0 ==> a[i] == rest[i - 1];
      }
      assert a[|a| - |bare|..] == rest[|rest| - |bare|..];
    }
  }

  /** `_freeze` tells two hashable values, or two containers, apart; a container collides with the one string
      that spells it. */
  lemma {:induction false} FreezeCollides(x: string, y: string)
    ensures Freeze(Hashable(x)) == Freeze(Hashable(y)) <==> x == y
    ensures Freeze(Container(x)) == Freeze(Container(y)) <==> x == y
    ensures Freeze(Hashable(x)) == Freeze(Container(y)) <==> x == y
  {}

  const TX_PLACEHOLDER: int := -1

  /** `with_tx`: stamp the datom and rewrite the placeholder in its provenance. */
  function WithTx(d: Datom, tx: int): Datom {
    d.(tx := tx,
       prov := if d.prov.supersededBy == Some(TX_PLACEHOLDER)
               then d.prov.(supersededBy := Some(tx)) else d.prov)
  }

  function Stamped(ds: seq<Datom>, tx: int): (r: seq<Datom>)
    ensures |r| == |ds|
  {
    seq(|ds|, i requires 0 <= i < |ds| => WithTx(ds[i], tx))
  }

  /** `max((d.tx for d in log), default=0)`. */
  function MaxTx(log: seq<Datom>): (m: int)
    ensures forall i :: 0 <= i < |log| ==> log[i].tx <= m
    ensures log == [] ==> m == 0
    ensures log != [] ==> exists i :: 0 <= i < |log| && log[i].tx == m
  {
    if log == [] then 0
    else if |log| == 1 then log[0].tx
    else
      var m := MaxTx(log[..|log| - 1]);
      var d := log[|log| - 1];
      if d.tx > m then d.tx else m
  }

  function NextTx(log: seq<Datom>): int {
    MaxTx(log) + 1
  }

  function MarkOne(d: Datom, tx: int, newTx: int): Datom {
    if d.tx == tx && d.invalidatedBy.None? && d.op.Assert? then d.(invalidatedBy := Some(newTx)) else d
  }

  function Marked(log: seq<Datom>, tx: int, newTx: int): (r: seq<Datom>)
    ensures |r| == |log|
  {
    seq(|log|, i requires 0 <= i < |log| => MarkOne(log[i], tx, newTx))
  }

  function MarkAll(log: seq<Datom>, olds: seq<int>, newTx: int): (r: seq<Datom>)
    ensures |r| == |log|
    decreases |olds|
  {
    if olds == [] then log else MarkAll(Marked(log, olds[0], newTx), olds[1..], newTx)
  }

  /** A log every store holds: transaction ids count from 1 and attributes are bare. */
  ghost predicate WellFormed(log: seq<Datom>) {
    forall i :: 0 <= i < |log| ==> log[i].tx >= 1 && IsBare(log[i].a)
  }

  /** Two logs that differ at most in `invalidatedBy`. */
  ghost predicate SameButMarks(a: seq<Datom>, b: seq<Datom>) {
    |a| == |b| && forall i :: 0 <= i < |a| ==> a[i].Erased() == b[i].Erased()
  }

  lemma {:induction false} MarkAllKeepsRest(log: seq<Datom>, olds: seq<int>, newTx: int)
    ensures SameButMarks(log, MarkAll(log, olds, newTx))
    decreases |olds|
  {
    if olds != [] {
      MarkAllKeepsRest(Marked(log, olds[0], newTx), olds[1..], newTx);
    }
  }

  /** What a series of marks does to one datom: the pointer of an unmarked assert of a listed
      transaction is set; nothing else changes and no pointer is rewritten. */
  lemma {:induction false} MarkAllAt(log: seq<Datom>, olds: seq<int>, newTx: int, i: nat)
    requires i < |log|
    ensures MarkAll(log, olds, newTx)[i] ==
            if log[i].invalidatedBy.None? && log[i].op.Assert? && log[i].tx in olds
            then log[i].(invalidatedBy := Some(newTx)) else log[i]
    decreases |olds|
  {
    if olds != [] {
      MarkAllAt(Marked(log, olds[0], newTx), olds[1..], newTx, i);
    }
  }

  /** The reference store. */
  class InMemoryStore {
    var log: seq<Datom>

    constructor ()
      ensures log == []
    {
      log := [];
    }

    method Append(datoms: seq<Datom>)
      modifies this
      ensures log == old(log) + datoms
    {
      log := log + datoms;
    }

    method NextTxProbe() returns (tx: int)
      ensures tx == NextTx(log)
    {
      var m := 0;
      for i := 0 to |log|
        invariant m == MaxTx(log[..i])
      {
        assert log[..i + 1][..i] == log[..i];
        if i == 0 || log[i].tx > m {
          m := log[i].tx;
        }
      }
      assert log[..|log|] == log;
      tx := m + 1;
    }

    /** Allocates the next id and appends, as one critical section. */
    method AllocateAndAppend(datoms: seq<Datom>) returns (out: seq<Datom>)
      modifies this
      ensures datoms == [] ==> out == [] && log == old(log)
      ensures datoms != [] ==> out == Stamped(datoms, NextTx(old(log))) && log == old(log) + out
    {
      if datoms == [] {
        return [];
      }
      var tx := NextTxProbe();
      out := [];
      for i := 0 to |datoms|
        invariant out == Stamped(datoms[..i], tx)
        invariant log == old(log)
      {
        out := out + [WithTx(datoms[i], tx)];
      }
      assert datoms[..|datoms|] == datoms;
      log := log + out;
    }

    /** Stamps every unmarked assert of transaction `tx`, in place. */
    method MarkInvalidated(tx: int, newTx: int)
      modifies this
      ensures log == Marked(old(log), tx, newTx)
    {
      for i := 0 to |log|
        invariant |log| == |old(log)|
        invariant forall j :: 0 <= j < i ==> log[j] == MarkOne(old(log)[j], tx, newTx)
        invariant forall j :: i <= j < |log| ==> log[j] == old(log)[j]
      {
        var d := log[i];
        if d.tx == tx && d.invalidatedBy.None? && d.op.Assert? {
          log := log[i := d.(invalidatedBy := Some(newTx))];
        }
      }
    }

    /** `since`: the datoms recorded strictly after `t`. */
    method Since(t: int) returns (out: seq<Datom>)
      ensures out == SinceOf(log, t)
    {
      out := [];
      for i := 0 to |log|
        invariant out == SinceOf(log[..i], t)
      {
        assert log[..i + 1][..i] == log[..i];
        if log[i].txTime > t {
          out := out + [log[i]];
        }
      }
      assert log[..|log|] == log;
    }
  }

  function SinceOf(log: seq<Datom>, t: int): seq<Datom> {
    if log == [] then []
    else
      var d := log[|log| - 1];
      SinceOf(log[..|log| - 1], t) + if d.txTime > t then [d] else []
  }
}
