/** What is live once all writers are idle, whatever the interleaving (src/persistence/fact/db.py:232-340).
    Marks set out for at an append may be made long after it, between the steps of other writers; once no
    writer has any left to make, which asserts are marked depends on what was set out for alone. */
module Quiescence {
  import opened Datoms
  import opened Transact
  import opened Runs
  import opened Refinement
  import opened LiveAsserts
  import opened Writers

  ghost predicate AllIdle(s: World) {
    forall w :: w in s.writers ==> s.writers[w].Idle?
  }

  /** The transactions the action sets out to mark. */
  function AsksFor(s: World, a: Action): set<int> {
    if a.Append? && s.At(a.w).Drafted? then set x | x in s.At(a.w).draft.invalidations else {}
  }

  /** The transactions of which a call of the run supersedes a datom: what its appends set out to mark. */
  function Asked(s: World, acts: seq<Action>): set<int> {
    if acts == [] then {}
    else
      var init := acts[..|acts| - 1];
      Asked(s, init) + AsksFor(Run(s, init), acts[|acts| - 1])
  }

  /** Some writer has yet to mark transaction `x`. */
  ghost predicate Pending(s: World, x: int) {
    exists w :: w in s.writers && s.writers[w].Marking? && x in s.writers[w].todo
  }

  /** An assert that was not marked when the run began from `base`. */
  predicate Unmarked(base: seq<Datom>, log: seq<Datom>, i: nat)
    requires i < |log|
  {
    log[i].op.Assert? && (i < |base| ==> base[i].invalidatedBy.None?)
  }

  /** A mark was asked for, and what was asked for is made or pending. */
  ghost predicate DatomAccounted(base: seq<Datom>, s: World, asked: set<int>, i: nat)
    requires i < |s.log|
  {
    Unmarked(base, s.log, i) ==>
      && (s.log[i].invalidatedBy.Some? ==> s.log[i].tx in asked)
      && (s.log[i].invalidatedBy.None? && s.log[i].tx in asked ==> Pending(s, s.log[i].tx))
  }

  ghost predicate TodosAsked(s: World, asked: set<int>) {
    forall w :: w in s.writers && s.writers[w].Marking? ==> forall x :: x in s.writers[w].todo ==> x in asked
  }

  ghost predicate AskedKnown(log: seq<Datom>, asked: set<int>) {
    forall x :: x in asked ==> x == TX_PLACEHOLDER || x <= MaxTx(log)
  }

  /** Between two steps. */
  ghost predicate Accounted(base: seq<Datom>, s: World, asked: set<int>) {
    && |base| <= |s.log| && (forall i :: 0 <= i < |s.log| ==> DatomAccounted(base, s, asked, i))
    && TodosAsked(s, asked) && AskedKnown(s.log, asked)
  }

  lemma {:induction false} StartAccounted(s: World)
    requires AllIdle(s)
    ensures Accounted(s.log, s, {})
  {}

  /** What is pending stays so where every writer with marks to make still has them to make. */
  lemma {:induction false} PendingStays(s: World, s': World, x: int)
    requires Pending(s, x)
    requires forall w :: w in s.writers && s.writers[w].Marking? && x in s.writers[w].todo ==>
               w in s'.writers && s'.writers[w].Marking? && x in s'.writers[w].todo
    ensures Pending(s', x)
  {}

  lemma {:induction false} BeginAccounted(base: seq<Datom>, s: World, asked: set<int>, w: nat, c: Call)
    requires Accounted(base, s, asked)
    ensures Accounted(base, Next(s, Begin(w, c)), asked)
  {
    hide BuildUpTo, MaxTx, Pending;
    var s' := Next(s, Begin(w, c));
    forall i | 0 <= i < |s.log| ensures DatomAccounted(base, s', asked, i) {
      assert DatomAccounted(base, s, asked, i);
      if Pending(s, s.log[i].tx) {
        PendingStays(s, s', s.log[i].tx);
      }
    }
  }

  lemma {:induction false} AppendAccounted(base: seq<Datom>, s: World, asked: set<int>, w: nat)
    requires Inv(s) && Accounted(base, s, asked)
    ensures Accounted(base, Next(s, Append(w)), asked + AsksFor(s, Append(w)))
  {
    hide MaxTx, Inv, Pending, DatomAccounted, AskedKnown, TodosAsked;
    var s', asked' := Next(s, Append(w)), asked + AsksFor(s, Append(w));
    if !s.At(w).Drafted? {
      assert asked' == asked;
    } else {
      AppendKnown(s, asked, w);
      AppendTodos(s, asked, w);
      forall i | 0 <= i < |s'.log| ensures DatomAccounted(base, s', asked', i) {
        if i < |s.log| {
          OldDatom(base, s, asked, w, i);
        } else {
          NewDatom(base, s, asked, w, i);
        }
      }
    }
  }

  lemma {:induction false} AppendTodos(s: World, asked: set<int>, w: nat)
    requires s.At(w).Drafted? && TodosAsked(s, asked)
    ensures TodosAsked(Next(s, Append(w)), asked + AsksFor(s, Append(w)))
  {
    hide MaxTx;
    var s' := Next(s, Append(w));
    forall v | v in s'.writers && s'.writers[v].Marking?
      ensures forall x :: x in s'.writers[v].todo ==> x in asked + AsksFor(s, Append(w))
    {
      assert v != w ==> s'.writers[v] == s.writers[v];
    }
  }

  lemma {:induction false} OldDatom(base: seq<Datom>, s: World, asked: set<int>, w: nat, i: nat)
    requires s.At(w).Drafted? && i < |s.log| && DatomAccounted(base, s, asked, i)
    ensures DatomAccounted(base, Next(s, Append(w)), asked + AsksFor(s, Append(w)), i)
  {
    hide MaxTx, Pending;
    var s', x := Next(s, Append(w)), s.log[i].tx;
    assert s'.log[i] == s.log[i];
    if x in s.At(w).draft.invalidations {
      PendingAt(s', w, x);
    } else if Pending(s, x) {
      PendingStays(s, s', x);
    }
  }

  lemma {:induction false} PendingAt(s: World, w: nat, x: int)
    requires w in s.writers && s.writers[w].Marking? && x in s.writers[w].todo
    ensures Pending(s, x)
  {}

  lemma {:induction false} NewDatom(base: seq<Datom>, s: World, asked: set<int>, w: nat, i: nat)
    requires Inv(s) && s.At(w).Drafted? && AskedKnown(s.log, asked)
    requires |s.log| <= i < |Next(s, Append(w)).log|
    ensures DatomAccounted(base, Next(s, Append(w)), asked + AsksFor(s, Append(w)), i)
  {
    hide MaxTx, Pending, LogOk, Committable;
    var d, j, tx := s.At(w).draft, i - |s.log|, NextTx(s.log);
    assert WriterOk(s.log, s.writers[w]);
    AsksForOld(s, w);
    assert Next(s, Append(w)).log[i] == WithTx(d.datoms[j], tx) && d.datoms[j].invalidatedBy.None?;
    assert tx !in asked + AsksFor(s, Append(w));
  }

  lemma {:induction false} AppendKnown(s: World, asked: set<int>, w: nat)
    requires Inv(s) && s.At(w).Drafted? && AskedKnown(s.log, asked)
    ensures |s.log| <= |Next(s, Append(w)).log|
    ensures AskedKnown(Next(s, Append(w)).log, asked + AsksFor(s, Append(w)))
  {
    hide MaxTx, Inv;
    AsksForOld(s, w);
    NextKeepsInv(s, Append(w));
    LogIsWellFormed(Next(s, Append(w)));
    NewIsHigher(s, Next(s, Append(w)));
  }

  lemma {:induction false} LogIsWellFormed(s: World)
    requires Inv(s)
    ensures WellFormed(s.log)
  {}

  /** Nothing asked for yet is the id the next append takes. */
  lemma {:induction false} AsksForOld(s: World, w: nat)
    requires Inv(s) && s.At(w).Drafted?
    ensures forall x :: x in s.At(w).draft.invalidations ==> x == TX_PLACEHOLDER || x <= MaxTx(s.log)
    ensures NextTx(s.log) > 0
  {
    hide MaxTx;
    DraftedCommittable(s, w);
    assert s.log != [] ==> s.log[0].tx >= 1;
  }

  lemma {:induction false} NewIsHigher(s: World, s': World)
    requires s.log <= s'.log && WellFormed(s'.log)
    ensures MaxTx(s.log) <= MaxTx(s'.log)
  {
    if s.log != [] {
      var i :| 0 <= i < |s.log| && s.log[i].tx == MaxTx(s.log);
      assert s'.log[i] == s.log[i];
    } else if s'.log != [] {
      assert s'.log[0].tx >= 1;
    }
  }

  lemma {:induction false} MarkAccounted(base: seq<Datom>, s: World, asked: set<int>, w: nat)
    requires Accounted(base, s, asked)
    ensures Accounted(base, Next(s, Mark(w)), asked)
  {
    if s.At(w).Marking? {
      hide MaxTx, Pending, DatomAccounted;
      var s' := Next(s, Mark(w));
      SameTop(s, s');
      forall i | 0 <= i < |s'.log| ensures DatomAccounted(base, s', asked, i) {
        MarkedDatom(base, s, asked, w, i);
      }
    }
  }

  lemma {:induction false} MarkedDatom(base: seq<Datom>, s: World, asked: set<int>, w: nat, i: nat)
    requires s.At(w).Marking? && i < |s.log| && DatomAccounted(base, s, asked, i) && TodosAsked(s, asked)
    ensures DatomAccounted(base, Next(s, Mark(w)), asked, i)
  {
    hide MaxTx, Pending;
    var s', x, todo := Next(s, Mark(w)), s.log[i].tx, s.At(w).todo;
    if todo != [] {
      assert todo[0] in asked && todo == [todo[0]] + todo[1..];
    }
    if Pending(s, x) && (todo == [] || x != todo[0]) {
      PendingStays(s, s', x);
    }
  }

  lemma {:induction false} SameTop(s: World, s': World)
    requires |s.log| == |s'.log| && forall i :: 0 <= i < |s.log| ==> s'.log[i].tx == s.log[i].tx
    ensures MaxTx(s.log) == MaxTx(s'.log)
  {
    if s.log != [] {
      var i :| 0 <= i < |s.log| && s.log[i].tx == MaxTx(s.log);
      var j :| 0 <= j < |s'.log| && s'.log[j].tx == MaxTx(s'.log);
      assert s'.log[i].tx == s.log[i].tx && s'.log[j].tx == s.log[j].tx;
    }
  }

  lemma {:induction false} RunAccounted(s: World, acts: seq<Action>)
    requires Inv(s) && AllIdle(s)
    ensures Accounted(s.log, Run(s, acts), Asked(s, acts))
  {
    hide Accounted, Next, Inv, AsksFor;
    if acts == [] {
      StartAccounted(s);
    } else {
      var init := acts[..|acts| - 1];
      RunAccounted(s, init);
      EveryInterleaving(s, init);
      var r, asked := Run(s, init), Asked(s, init);
      StepAccounted(s.log, r, asked, acts[|acts| - 1]);
    }
  }

  lemma {:induction false} StepAccounted(base: seq<Datom>, s: World, asked: set<int>, a: Action)
    requires Inv(s) && Accounted(base, s, asked)
    ensures Accounted(base, Next(s, a), asked + AsksFor(s, a))
  {
    hide Accounted, Next, Inv;
    assert !a.Append? ==> asked + AsksFor(s, a) == asked;
    match a
    case Begin(w, c) => BeginAccounted(base, s, asked, w, c);
    case Append(w) => AppendAccounted(base, s, asked, w);
    case Mark(w) => MarkAccounted(base, s, asked, w);
  }

  /** Whatever the interleaving, once all writers are idle an open assert that was unmarked at the start or
      appended since is live if and only if no call of the run supersedes a datom of its transaction. */
  lemma {:induction false} LiveWhenIdle(s: World, acts: seq<Action>, i: nat)
    requires Inv(s) && AllIdle(s) && AllIdle(Run(s, acts)) && i < |Run(s, acts).log|
    ensures var d := Run(s, acts).log[i];
            d.Live() <==> Unmarked(s.log, Run(s, acts).log, i) && d.validTo.None? && d.tx !in Asked(s, acts)
  {
    hide Asked, MaxTx, Next;
    RunAccounted(s, acts);
    EveryInterleaving(s, acts);
    var r := Run(s, acts);
    assert DatomAccounted(s.log, r, Asked(s, acts), i) && !Pending(r, r.log[i].tx);
  }

  /** Hence one live assert a key is left, by any interleaving that comes to rest, if and only if of any two
      open asserts of one key at least one is in a transaction of which a call supersedes a datom. */
  lemma {:induction false} QuietOneLiveIff(s: World, acts: seq<Action>)
    requires Inv(s) && AllIdle(s) && AllIdle(Run(s, acts))
    ensures var log := Run(s, acts).log;
            OneLive(log) <==>
            forall i, j :: 0 <= i < j < |log| && Unmarked(s.log, log, i) && Unmarked(s.log, log, j)
                           && log[i].validTo.None? && log[j].validTo.None?
                           && (log[i].e, log[i].a) == (log[j].e, log[j].a) ==>
              log[i].tx in Asked(s, acts) || log[j].tx in Asked(s, acts)
  {
    hide Asked, Run, OneLive, Inv;
    var log := Run(s, acts).log;
    forall i | 0 <= i < |log|
      ensures log[i].Live() <==> Unmarked(s.log, log, i) && log[i].validTo.None? && log[i].tx !in Asked(s, acts)
    {
      LiveWhenIdle(s, acts, i);
    }
    OneLivePairs(log);
  }

  lemma {:induction false} OneLivePairs(log: seq<Datom>)
    ensures OneLive(log) <==>
            forall i, j :: 0 <= i < j < |log| && log[i].Live() && log[j].Live() ==>
              (log[i].e, log[i].a) != (log[j].e, log[j].a)
  {
    hide OneLive;
    if OneLive(log) {
      forall i, j | 0 <= i < j < |log| && log[i].Live() && log[j].Live()
        ensures (log[i].e, log[i].a) != (log[j].e, log[j].a)
      {
        LiveIsUnique(log, i, j);
      }
    } else {
      TwoLive(log);
    }
  }

  lemma {:induction false} TwoLive(log: seq<Datom>)
    requires !OneLive(log)
    ensures exists i, j :: 0 <= i < j < |log| && log[i].Live() && log[j].Live()
                           && (log[i].e, log[i].a) == (log[j].e, log[j].a)
  {
    hide LiveKeys;
    if log == [] {
      NoKeys();
    } else {
      var init, d := log[..|log| - 1], log[|log| - 1];
      assert log == init + [d];
      LiveKeysSnoc(init, d);
      if !OneLive(init) {
        TwoLive(init);
        var i, j :| 0 <= i < j < |init| && init[i].Live() && init[j].Live()
                    && (init[i].e, init[i].a) == (init[j].e, init[j].a);
        assert log[i] == init[i] && log[j] == init[j];
      } else {
        LastRepeats(LiveKeys(init), (d.e, d.a));
        LiveKeyAt(init, (d.e, d.a));
        var i :| 0 <= i < |init| && init[i].Live() && (init[i].e, init[i].a) == (d.e, d.a);
        assert log[i] == init[i] && log[|log| - 1] == d;
      }
    }
  }

  lemma {:induction false} NoKeys()
    ensures LiveKeys([]) == []
  {}

  lemma {:induction false} LastRepeats(ks: seq<Key>, k: Key)
    requires NoDup(ks) && !NoDup(ks + [k])
    ensures k in ks
  {
    var s := ks + [k];
    var i, j :| 0 <= i < j < |s| && s[i] == s[j];
    assert j == |ks| && s[i] == ks[i];
  }
}
