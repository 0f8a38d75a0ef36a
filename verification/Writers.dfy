/** Interleaved writers: snapshot, atomic append, separate marks (src/persistence/fact/db.py:232-340). */
module Writers {
  import opened Wrappers
  import opened Datoms
  import opened Transact
  import opened Runs
  import opened Refinement
  import opened LiveAsserts

  datatype Writer =
    | Idle
    | Drafted(snapshot: seq<Datom>, draft: Draft)
    | Marking(tx: int, todo: seq<int>)

  datatype World = World(log: seq<Datom>, writers: map<nat, Writer>) {
    function At(w: nat): Writer {
      if w in writers then writers[w] else Idle
    }
  }

  /** One atomic step of one writer. */
  datatype Action =
    | Begin(w: nat, call: Call)
    | Append(w: nat)
    | Mark(w: nat)

  /** The step; an action that is not enabled changes nothing. */
  function Next(s: World, a: Action): World {
    match a {
      case Begin(w, c) =>
        if !s.At(w).Idle? || c.facts == [] then s
        else (
          match BuildAll(c.mode, s.log, c.facts, c.ctx)
          case Refused(_) => s
          case Built(d) => s.(writers := s.writers[w := Drafted(s.log, d)]))
      case Append(w) =>
        if !s.At(w).Drafted? then s
        else
          var d := s.At(w).draft;
          var tx := NextTx(s.log);
          World(s.log + Stamped(d.datoms, tx), s.writers[w := Marking(tx, d.invalidations)])
      case Mark(w) =>
        if !s.At(w).Marking? then s
        else
          var (tx, todo) := (s.At(w).tx, s.At(w).todo);
          if todo == [] then s.(writers := s.writers[w := Idle])
          else World(Marked(s.log, todo[0], tx), s.writers[w := Marking(tx, todo[1..])])
    }
  }

  function Run(s: World, acts: seq<Action>): World {
    if acts == [] then s else Next(Run(s, acts[..|acts| - 1]), acts[|acts| - 1])
  }

  // ---- What every interleaving keeps ---------------------------------------------------

  /** `c` is the companion retract, written by `newTx`, of a datom `p` of transaction `oldTx`. */
  predicate Supersedes(c: Datom, p: Datom, oldTx: int, newTx: int) {
    && c.tx == newTx && c.op.Retract? && c.prov.supersededBy == Some(newTx)
    && p.tx == oldTx && p.op.Assert? && c.e == p.e && c.a == p.a && c.v == p.v
  }

  ghost predicate Justified(log: seq<Datom>, oldTx: int, newTx: int) {
    oldTx < newTx && exists c, p :: 0 <= c < |log| && 0 <= p < |log| && Supersedes(log[c], log[p], oldTx, newTx)
  }

  ghost predicate SortedByTx(log: seq<Datom>) {
    forall i, j :: 0 <= i < j < |log| ==> log[i].tx <= log[j].tx
  }

  /** Set pointers name a later transaction of the log that holds the reason. */
  ghost predicate PointersJustified(log: seq<Datom>) {
    forall i :: 0 <= i < |log| && log[i].invalidatedBy.Some? ==> Justified(log, log[i].tx, log[i].invalidatedBy.value)
  }

  ghost predicate LogOk(log: seq<Datom>) {
    WellFormed(log) && SortedByTx(log) && PointersJustified(log)
  }

  /** The past of a log: datoms stay, and a pointer once set stays. */
  ghost predicate Evolves(before: seq<Datom>, after: seq<Datom>) {
    && |before| <= |after|
    && forall i :: 0 <= i < |before| ==>
         after[i].Erased() == before[i].Erased()
         && (before[i].invalidatedBy.Some? ==> after[i].invalidatedBy == before[i].invalidatedBy)
  }

  /** An invalidation a draft will ask for is the placeholder, or a snapshot transaction the
      draft holds a companion for. */
  ghost predicate DraftJustified(snapshot: seq<Datom>, d: Draft, x: int) {
    x == TX_PLACEHOLDER
    || exists c, p :: 0 <= c < |d.datoms| && 0 <= p < |snapshot|
                      && Supersedes(d.datoms[c], snapshot[p], x, TX_PLACEHOLDER)
  }

  ghost predicate DraftOk(snapshot: seq<Datom>, d: Draft) {
    && (forall i :: 0 <= i < |d.datoms| ==>
          d.datoms[i].tx == TX_PLACEHOLDER && IsBare(d.datoms[i].a) && d.datoms[i].invalidatedBy.None?)
    && (forall x :: x in d.invalidations ==> DraftJustified(snapshot, d, x))
  }

  ghost predicate WriterOk(log: seq<Datom>, w: Writer) {
    match w
    case Idle => true
    case Drafted(snapshot, d) => Evolves(snapshot, log) && DraftOk(snapshot, d) && d.datoms != []
    case Marking(tx, todo) => forall x :: x in todo ==> x == TX_PLACEHOLDER || Justified(log, x, tx)
  }

  ghost predicate Inv(s: World) {
    LogOk(s.log) && forall w :: w in s.writers ==> WriterOk(s.log, s.writers[w])
  }

  lemma {:induction false} EvolvesTrans(a: seq<Datom>, b: seq<Datom>, c: seq<Datom>)
    requires Evolves(a, b) && Evolves(b, c)
    ensures Evolves(a, c)
  {
    forall i | 0 <= i < |a|
      ensures c[i].Erased() == a[i].Erased()
      ensures a[i].invalidatedBy.Some? ==> c[i].invalidatedBy == a[i].invalidatedBy
    {
      assert b[i].Erased() == a[i].Erased() && c[i].Erased() == b[i].Erased();
    }
  }

  lemma {:induction false} SupersedesErased(c: Datom, c': Datom, p: Datom, p': Datom, oldTx: int, newTx: int)
    requires c.Erased() == c'.Erased() && p.Erased() == p'.Erased() && Supersedes(c, p, oldTx, newTx)
    ensures Supersedes(c', p', oldTx, newTx)
  {
    assert c'.Erased().tx == c'.tx && c'.Erased().op == c'.op && c'.Erased().prov == c'.prov;
    assert c'.Erased().e == c'.e && c'.Erased().a == c'.a && c'.Erased().v == c'.v;
    assert p'.Erased().tx == p'.tx && p'.Erased().op == p'.op;
    assert p'.Erased().e == p'.e && p'.Erased().a == p'.a && p'.Erased().v == p'.v;
  }

  /** A reason, once in the log, stays there. */
  lemma {:induction false} JustifiedStays(before: seq<Datom>, after: seq<Datom>, oldTx: int, newTx: int)
    requires Evolves(before, after) && Justified(before, oldTx, newTx)
    ensures Justified(after, oldTx, newTx)
  {
    var c, p :| 0 <= c < |before| && 0 <= p < |before| && Supersedes(before[c], before[p], oldTx, newTx);
    SupersedesErased(before[c], after[c], before[p], after[p], oldTx, newTx);
  }

  lemma {:induction false} WriterStaysOk(before: seq<Datom>, after: seq<Datom>, w: Writer)
    requires Evolves(before, after) && WriterOk(before, w)
    ensures WriterOk(after, w)
  {
    match w
    case Idle =>
    case Drafted(snapshot, d) => EvolvesTrans(snapshot, before, after);
    case Marking(tx, todo) =>
      forall x | x in todo && x != TX_PLACEHOLDER ensures Justified(after, x, tx) {
        JustifiedStays(before, after, x, tx);
      }
  }

  /** A fresh draft is justified against the log it was built from. */
  lemma {:induction false} BuiltIsOk(mode: Lookup, log: seq<Datom>, facts: seq<Fact>, n: nat, ctx: Ctx)
    requires WellFormed(log) && n <= |facts| && BuildUpTo(mode, log, facts, n, ctx).Built?
    ensures DraftOk(log, BuildUpTo(mode, log, facts, n, ctx).draft)
  {
    hide DraftOk, PriorOf, Step;
    if n == 0 {
      EmptyIsOk(log);
    } else {
      BuiltIsOk(mode, log, facts, n - 1, ctx);
      var d := BuildUpTo(mode, log, facts, n - 1, ctx).draft;
      PriorIsOk(mode, log, facts, n - 1, d, ctx);
      StepIsOk(log, d, facts[n - 1], PriorOf(mode, log, facts, n - 1, d.datoms, ctx), ctx);
    }
  }

  lemma {:induction false} PriorIsOk(mode: Lookup, log: seq<Datom>, facts: seq<Fact>, n: nat, d: Draft, ctx: Ctx)
    requires WellFormed(log) && n < |facts| && DraftOk(log, d)
    ensures var p := PriorOf(mode, log, facts, n, d.datoms, ctx);
            p.Some? ==> p.value.Live() && IsBare(p.value.a) && (p.value in log || p.value.tx == TX_PLACEHOLDER)
  {
    hide PriorOf;
    PriorFound(mode, log, facts, n, d.datoms, ctx);
  }

  lemma {:induction false} EmptyIsOk(log: seq<Datom>)
    ensures DraftOk(log, Draft([], []))
  {}

  lemma {:induction false} StepIsOk(log: seq<Datom>, d: Draft, f: Fact, prior: Option<Datom>, ctx: Ctx)
    requires WellFormed(log) && DraftOk(log, d) && Step(d, f, prior, ctx).Some?
    requires prior.Some? ==> prior.value.Live() && IsBare(prior.value.a)
                             && (prior.value in log || prior.value.tx == TX_PLACEHOLDER)
    ensures DraftOk(log, Step(d, f, prior, ctx).value)
  {
    hide Bare;
    var after := Step(d, f, prior, ctx).value;
    forall x | x in after.invalidations ensures DraftJustified(log, after, x) {
      if x in d.invalidations {
        JustifiedGrows(log, d, after, x);
      } else if x != TX_PLACEHOLDER {
        var p :| 0 <= p < |log| && log[p] == prior.value;
        assert Supersedes(after.datoms[|d.datoms|], log[p], x, TX_PLACEHOLDER);
      }
    }
    forall i | 0 <= i < |after.datoms|
      ensures after.datoms[i].tx == TX_PLACEHOLDER && IsBare(after.datoms[i].a) && after.datoms[i].invalidatedBy.None?
    {
      assert i < |d.datoms| ==> after.datoms[i] == d.datoms[i];
    }
  }

  lemma {:induction false} JustifiedGrows(log: seq<Datom>, d: Draft, after: Draft, x: int)
    requires d.datoms <= after.datoms && DraftJustified(log, d, x)
    ensures DraftJustified(log, after, x)
  {
    if x != TX_PLACEHOLDER {
      var c, p :| 0 <= c < |d.datoms| && 0 <= p < |log| && Supersedes(d.datoms[c], log[p], x, TX_PLACEHOLDER);
      assert after.datoms[c] == d.datoms[c];
    }
  }

  /** The append: one run of a transaction id larger than every earlier one; the draft's reasons
      become the log's. */
  lemma {:induction false} AppendIsOneRun(log: seq<Datom>, snapshot: seq<Datom>, d: Draft)
    requires LogOk(log) && Evolves(snapshot, log) && DraftOk(snapshot, d)
    ensures var tx := NextTx(log); var after := log + Stamped(d.datoms, tx);
      && LogOk(after) && Evolves(log, after)
      && (forall i :: 0 <= i < |log| ==> after[i].tx < tx) && (forall i :: |log| <= i < |after| ==> after[i].tx == tx)
      && WriterOk(after, Marking(tx, d.invalidations))
  {
    var tx := NextTx(log);
    AppendShape(log, d);
    AppendPointers(log, d);
    forall x | x in d.invalidations && x != TX_PLACEHOLDER ensures Justified(log + Stamped(d.datoms, tx), x, tx) {
      AppendReason(log, snapshot, d, x);
    }
  }

  lemma {:induction false} AppendShape(log: seq<Datom>, d: Draft)
    requires WellFormed(log) && SortedByTx(log) && forall i :: 0 <= i < |d.datoms| ==> IsBare(d.datoms[i].a)
    ensures var tx := NextTx(log); var after := log + Stamped(d.datoms, tx);
      && WellFormed(after) && SortedByTx(after) && Evolves(log, after)
      && (forall i :: 0 <= i < |log| ==> after[i].tx < tx) && (forall i :: |log| <= i < |after| ==> after[i].tx == tx)
  {
    assert NextTx(log) >= 1 by {
      assert log != [] ==> log[0].tx >= 1;
    }
  }

  lemma {:induction false} AppendPointers(log: seq<Datom>, d: Draft)
    requires PointersJustified(log) && forall i :: 0 <= i < |d.datoms| ==> d.datoms[i].invalidatedBy.None?
    ensures PointersJustified(log + Stamped(d.datoms, NextTx(log)))
  {
    var after := log + Stamped(d.datoms, NextTx(log));
    forall i | 0 <= i < |after| && after[i].invalidatedBy.Some?
      ensures Justified(after, after[i].tx, after[i].invalidatedBy.value)
    {
      assert i >= |log| ==> after[i] == WithTx(d.datoms[i - |log|], NextTx(log));
      JustifiedStays(log, after, after[i].tx, after[i].invalidatedBy.value);
    }
  }

  lemma {:induction false} AppendReason(log: seq<Datom>, snapshot: seq<Datom>, d: Draft, x: int)
    requires Evolves(snapshot, log) && DraftJustified(snapshot, d, x) && x != TX_PLACEHOLDER
    ensures Justified(log + Stamped(d.datoms, NextTx(log)), x, NextTx(log))
  {
    var tx := NextTx(log);
    var after := log + Stamped(d.datoms, tx);
    var c, p :| 0 <= c < |d.datoms| && 0 <= p < |snapshot| && Supersedes(d.datoms[c], snapshot[p], x, TX_PLACEHOLDER);
    assert log[p].Erased() == snapshot[p].Erased();
    SupersedesErased(d.datoms[c], d.datoms[c], snapshot[p], log[p], x, TX_PLACEHOLDER);
    assert after[|log| + c] == WithTx(d.datoms[c], tx) && after[p] == log[p];
    assert Supersedes(after[|log| + c], after[p], x, tx);
  }

  /** A mark sets the pointers it may, and only those. */
  lemma {:induction false} MarkIsJustified(log: seq<Datom>, x: int, tx: int)
    requires LogOk(log) && (x == TX_PLACEHOLDER || Justified(log, x, tx))
    ensures LogOk(Marked(log, x, tx)) && Evolves(log, Marked(log, x, tx))
  {
    var after := Marked(log, x, tx);
    assert Evolves(log, after);
    forall i | 0 <= i < |after| && after[i].invalidatedBy.Some?
      ensures Justified(after, after[i].tx, after[i].invalidatedBy.value)
    {
      assert log[i].tx >= 1;
      if log[i].invalidatedBy.Some? {
        JustifiedStays(log, after, log[i].tx, log[i].invalidatedBy.value);
      } else {
        JustifiedStays(log, after, x, tx);
      }
    }
  }

  lemma {:induction false} NextKeepsInv(s: World, a: Action)
    requires Inv(s)
    ensures Inv(Next(s, a)) && Evolves(s.log, Next(s, a).log)
  {
    var s' := Next(s, a);
    match a {
      case Begin(w, c) =>
        if s.At(w).Idle? && c.facts != [] && BuildAll(c.mode, s.log, c.facts, c.ctx).Built? {
          BuiltIsOk(c.mode, s.log, c.facts, |c.facts|, c.ctx);
          DraftNonEmpty(c.mode, s.log, c.facts, |c.facts|, c.ctx);
        }
      case Append(w) =>
        if s.At(w).Drafted? {
          AppendIsOneRun(s.log, s.At(w).snapshot, s.At(w).draft);
        }
      case Mark(w) =>
        if s.At(w).Marking? && s.At(w).todo != [] {
          MarkIsJustified(s.log, s.At(w).todo[0], s.At(w).tx);
          WriterStaysOk(s.log, s'.log, Marking(s.At(w).tx, s.At(w).todo[1..]));
        }
    }
    forall v | v in s'.writers ensures WriterOk(s'.log, s'.writers[v]) {
      if v in s.writers && s'.writers[v] == s.writers[v] {
        WriterStaysOk(s.log, s'.log, s.writers[v]);
      }
    }
  }

  /** Under every interleaving of any number of writers: the log stays sorted by transaction;
      existing datoms change only in `invalidated_by`, which is set at most once and then stays; and
      every set pointer names a strictly later transaction of the log that holds a companion retract
      for a datom of the invalidated transaction. */
  lemma {:induction false} EveryInterleaving(s: World, acts: seq<Action>)
    requires Inv(s)
    ensures Inv(Run(s, acts)) && Evolves(s.log, Run(s, acts).log)
  {
    if acts != [] {
      var init := acts[..|acts| - 1];
      EveryInterleaving(s, init);
      NextKeepsInv(Run(s, init), acts[|acts| - 1]);
      EvolvesTrans(s.log, Run(s, init).log, Run(s, acts).log);
    }
  }

  /** In a sorted log the datoms of one transaction are one contiguous run. */
  lemma {:induction false} RunsAreContiguous(s: World, acts: seq<Action>, i: nat, j: nat, k: nat)
    requires Inv(s) && i <= j <= k < |Run(s, acts).log| && Run(s, acts).log[i].tx == Run(s, acts).log[k].tx
    ensures Run(s, acts).log[j].tx == Run(s, acts).log[i].tx
  {
    EveryInterleaving(s, acts);
  }

  /** No two appends of a run share a transaction id: each one's id exceeds every id before it. */
  lemma {:induction false} AppendsAreFresh(s: World, acts: seq<Action>, w: nat)
    requires Inv(s) && Run(s, acts).At(w).Drafted?
    ensures var before, after := Run(s, acts), Next(Run(s, acts), Append(w));
            && before.log <= after.log && after.At(w).Marking?
            && (forall i :: 0 <= i < |before.log| ==> before.log[i].tx < after.At(w).tx)
            && (forall i :: |before.log| <= i < |after.log| ==> after.log[i].tx == after.At(w).tx)
  {
    EveryInterleaving(s, acts);
    var before := Run(s, acts);
    AppendIsOneRun(before.log, before.At(w).snapshot, before.At(w).draft);
  }

  // ---- Writers whose marks follow their appends ------------------------------------------

  function Marks(w: nat, n: nat): seq<Action> {
    seq(n, i => Mark(w))
  }

  /** A writer takes its snapshot, or appends and marks in one go. */
  datatype Event = Start(w: nat, call: Call) | Finish(w: nat)

  function Block(s: World, ev: Event): seq<Action> {
    match ev
    case Start(w, c) => [Begin(w, c)]
    case Finish(w) => if s.At(w).Drafted? then [Append(w)] + Marks(w, |s.At(w).draft.invalidations| + 1) else []
  }

  /** The steps of a run of such events. */
  function Schedule(s: World, evs: seq<Event>): seq<Action> {
    if evs == [] then []
    else
      var init := Schedule(s, evs[..|evs| - 1]);
      init + Block(Run(s, init), evs[|evs| - 1])
  }

  function After(s: World, evs: seq<Event>): World {
    Run(s, Schedule(s, evs))
  }

  lemma {:induction false} RunConcat(s: World, a: seq<Action>, b: seq<Action>)
    ensures Run(s, a + b) == Run(Run(s, a), b)
    decreases |b|
  {
    hide Next;
    if b == [] {
      assert a + b == a;
    } else {
      assert (a + b)[..|a + b| - 1] == a + b[..|b| - 1];
      RunConcat(s, a, b[..|b| - 1]);
    }
  }

  lemma {:induction false} AfterSnoc(s: World, evs: seq<Event>, ev: Event)
    ensures After(s, evs + [ev]) == Run(After(s, evs), Block(After(s, evs), ev))
    ensures After(s, []) == s
  {
    hide Next, Block;
    assert (evs + [ev])[..|evs|] == evs;
    RunConcat(s, Schedule(s, evs), Block(After(s, evs), ev));
  }

  lemma {:induction false} RunOne(s: World, a: Action)
    ensures Run(s, [a]) == Next(s, a)
  {
    assert [a][..0] == [];
  }

  lemma {:induction false} MarksFinish(s: World, w: nat, tx: int, todo: seq<int>)
    requires s.At(w) == Marking(tx, todo)
    ensures Run(s, Marks(w, |todo| + 1)) == World(MarkAll(s.log, todo, tx), s.writers[w := Idle])
    decreases |todo|
  {
    hide Marked;
    var mid, n := Next(s, Mark(w)), |todo|;
    assert Marks(w, n + 1) == [Mark(w)] + Marks(w, n);
    RunConcat(s, [Mark(w)], Marks(w, n));
    RunOne(s, Mark(w));
    if todo != [] {
      MarksFinish(mid, w, tx, todo[1..]);
      assert mid.writers[w := Idle] == s.writers[w := Idle];
    }
  }

  /** Append and marks together commit the draft to the log as it stands at the append. */
  lemma {:induction false} FinishCommits(s: World, w: nat)
    requires s.At(w).Drafted? && s.At(w).draft.datoms != []
    ensures Run(s, Block(s, Finish(w))) == World(Commit(s.log, s.At(w).draft), s.writers[w := Idle])
  {
    hide MaxTx, MarkAll;
    var d := s.At(w).draft;
    var mid := Next(s, Append(w));
    RunConcat(s, [Append(w)], Marks(w, |d.invalidations| + 1));
    RunOne(s, Append(w));
    MarksFinish(mid, w, NextTx(s.log), d.invalidations);
    assert mid.writers[w := Idle] == s.writers[w := Idle];
  }

  /** A writer left alone leaves exactly what the sequential transactor leaves. */
  lemma {:induction false} AloneIsSequential(s: World, w: nat, c: Call)
    requires s.At(w).Idle? && c.facts != [] && BuildAll(c.mode, s.log, c.facts, c.ctx).Built?
    ensures After(s, [Start(w, c), Finish(w)]) == World(LogAfterCall(s.log, c), s.writers[w := Idle])
  {
    hide BuildUpTo, Block, Schedule, After, Commit;
    var d := BuildAll(c.mode, s.log, c.facts, c.ctx).draft;
    DraftNonEmpty(c.mode, s.log, c.facts, |c.facts|, c.ctx);
    AfterSnoc(s, [], Start(w, c));
    var mid := StartDrafts(s, [], w, c);
    AfterSnoc(s, [Start(w, c)], Finish(w));
    assert [] + [Start(w, c)] == [Start(w, c)] && [Start(w, c)] + [Finish(w)] == [Start(w, c), Finish(w)];
    FinishCommits(mid, w);
    assert mid.writers[w := Idle] == s.writers[w := Idle];
  }

  lemma {:induction false} StartDrafts(s: World, evs: seq<Event>, w: nat, c: Call) returns (mid: World)
    requires After(s, evs).At(w).Idle? && c.facts != [] && BuildAll(c.mode, After(s, evs).log, c.facts, c.ctx).Built?
    ensures mid == After(s, evs + [Start(w, c)])
    ensures var before := After(s, evs);
            var d := BuildAll(c.mode, before.log, c.facts, c.ctx).draft;
            mid == before.(writers := before.writers[w := Drafted(before.log, d)])
  {
    hide BuildUpTo, After;
    mid := After(s, evs + [Start(w, c)]);
    AfterSnoc(s, evs, Start(w, c));
    RunOne(After(s, evs), Begin(w, c));
  }

  lemma {:induction false} FreshWorld()
    ensures Inv(World([], map[]))
  {}

  /** The invariant holds of an empty store, and of every log a sequential run leaves: so what
      every interleaving keeps holds from there on. */
  lemma {:induction false} SequentialLogsAreOk(calls: seq<Call>)
    ensures Inv(World(RunCalls([], calls), map[]))
  {
    hide LogOk, BuildUpTo, After, Commit;
    if calls == [] {
      FreshWorld();
    } else {
      var init, c := calls[..|calls| - 1], calls[|calls| - 1];
      SequentialLogsAreOk(init);
      var s := World(RunCalls([], init), map[]);
      if BuildAll(c.mode, s.log, c.facts, c.ctx).Built? {
        if c.facts != [] {
          AloneIsSequential(s, 0, c);
          assert After(s, [Start(0, c), Finish(0)]) == Run(s, Schedule(s, [Start(0, c), Finish(0)])) by {
            AfterIsRun(s, [Start(0, c), Finish(0)]);
          }
          EveryInterleaving(s, Schedule(s, [Start(0, c), Finish(0)]));
        } else {
          EmptyCallKeeps(s.log, c);
        }
      }
    }
  }

  lemma {:induction false} AfterIsRun(s: World, evs: seq<Event>)
    ensures After(s, evs) == Run(s, Schedule(s, evs))
  {}

  lemma {:induction false} EmptyCallKeeps(log: seq<Datom>, c: Call)
    requires c.facts == []
    ensures LogAfterCall(log, c) == log
  {}

  // ---- When concurrent writers keep one live assert a key ------------------------------------

  /** The draft asserts no key twice, and its marks reach whatever is live in `log` under its keys. */
  ghost predicate KeepsOneLive(log: seq<Datom>, d: Draft) {
    NoDup(LiveKeys(d.datoms)) && AllMarked(log, LiveKeys(d.datoms), x => x in d.invalidations)
  }

  lemma {:induction false} DraftedCommittable(s: World, w: nat)
    requires Inv(s) && s.At(w).Drafted?
    ensures Committable(s.log, s.At(w).draft) && s.At(w).draft.datoms != [] && WellFormed(s.log)
  {
    hide MaxTx;
    var snapshot, d := s.At(w).snapshot, s.At(w).draft;
    assert WriterOk(s.log, s.writers[w]);
    forall x | x in d.invalidations && x != TX_PLACEHOLDER ensures x <= MaxTx(s.log) {
      assert DraftJustified(snapshot, d, x);
      var c, p :| 0 <= c < |d.datoms| && 0 <= p < |snapshot| && Supersedes(d.datoms[c], snapshot[p], x, TX_PLACEHOLDER);
      assert s.log[p].Erased() == snapshot[p].Erased();
      assert s.log[p].Erased().tx == s.log[p].tx && snapshot[p].Erased().tx == snapshot[p].tx;
    }
  }

  /** A writer that appends to a log with one live assert a key, perhaps long after its snapshot, and
      then marks, leaves one a key if and only if the open asserts of its call share no stored key and
      each assert live under one of these keys at the append is in a transaction of which the call
      supersedes a datom of its snapshot. */
  lemma {:induction false} FinishKeepsOneLiveIff(s: World, w: nat, c: Call)
    requires Inv(s) && OneLive(s.log) && s.At(w).Drafted?
    requires BuildAll(c.mode, s.At(w).snapshot, c.facts, c.ctx) == Built(s.At(w).draft)
    ensures var snapshot := s.At(w).snapshot;
            OneLive(Run(s, Block(s, Finish(w))).log) <==>
              NoDup(OpenKeys(c.facts))
              && AllMarked(s.log, OpenKeys(c.facts), x => Overwrites(c.mode, snapshot, c.facts, |c.facts|, c.ctx, x))
  {
    hide LiveKeys, OpenKeys, BuildUpTo, Commit, NoDup, Overwrites, OneLive, Inv, Committable, Block;
    var snapshot, d := s.At(w).snapshot, s.At(w).draft;
    DraftedCommittable(s, w);
    FinishCommits(s, w);
    CommitKeepsOneLiveIff(s.log, d);
    DraftLive(c.mode, snapshot, c.facts, |c.facts|, c.ctx);
    assert c.facts[..|c.facts|] == c.facts;
    forall i | 0 <= i < |s.log|
      ensures s.log[i].tx in d.invalidations <==> Overwrites(c.mode, snapshot, c.facts, |c.facts|, c.ctx, s.log[i].tx)
    {
      InvalidationsAre(c.mode, snapshot, c.facts, |c.facts|, c.ctx, s.log[i].tx);
    }
  }

  /** What the event does to the log, if it finishes a writer, keeps one live assert a key. */
  ghost predicate KeepsAt(s: World, ev: Event) {
    ev.Finish? && s.At(ev.w).Drafted? ==> KeepsOneLive(s.log, s.At(ev.w).draft)
  }

  lemma {:induction false} EventKeepsOneLiveIff(s: World, ev: Event)
    requires Inv(s) && OneLive(s.log)
    ensures OneLive(Run(s, Block(s, ev)).log) <==> KeepsAt(s, ev)
  {
    hide OneLive, Inv, Committable, Commit, LiveKeys, NoDup;
    match ev
    case Start(w, c) => RunOne(s, Begin(w, c));
    case Finish(w) =>
      if s.At(w).Drafted? {
        DraftedCommittable(s, w);
        FinishCommits(s, w);
        CommitKeepsOneLiveIff(s.log, s.At(w).draft);
      }
  }

  /** Over whole runs of any number of writers: the log has one live assert a key after every event if
      and only if each writer that finishes marks what is live under its keys at that moment and
      asserts no key twice. */
  lemma {:induction false} WritersKeepOneLiveIff(s: World, evs: seq<Event>)
    requires Inv(s) && OneLive(s.log)
    ensures (forall n :: 0 <= n <= |evs| ==> OneLive(After(s, evs[..n]).log))
            <==> forall n :: 0 <= n < |evs| ==> KeepsAt(After(s, evs[..n]), evs[n])
  {
    hide OneLive, Inv, KeepsAt, After, Block;
    AfterSnoc(s, [], Finish(0));
    if evs != [] {
      var init := evs[..|evs| - 1];
      WritersKeepOneLiveIff(s, init);
      forall n | 0 <= n < |evs| ensures evs[..n] == init[..n] {}
      assert evs[..|evs|] == init + [evs[|evs| - 1]] && init[..|init|] == init;
      AfterSnoc(s, init, evs[|evs| - 1]);
      AfterIsRun(s, init);
      EveryInterleaving(s, Schedule(s, init));
      if forall n :: 0 <= n <= |init| ==> OneLive(After(s, init[..n]).log) {
        assert OneLive(After(s, init[..|init|]).log);
        EventKeepsOneLiveIff(After(s, init), evs[|evs| - 1]);
      }
    }
  }


  /** The world two writers leave that both begin before either appends. */
  lemma {:induction false} TwoSnapshots(s: World, w1: nat, c1: Call, w2: nat, c2: Call)
    requires w1 != w2 && s.At(w1).Idle? && s.At(w2).Idle? && c1.facts != [] && c2.facts != []
    requires BuildAll(c1.mode, s.log, c1.facts, c1.ctx).Built? && BuildAll(c2.mode, s.log, c2.facts, c2.ctx).Built?
    ensures After(s, [Start(w1, c1), Start(w2, c2), Finish(w1), Finish(w2)]).log ==
            Commit(LogAfterCall(s.log, c1), BuildAll(c2.mode, s.log, c2.facts, c2.ctx).draft)
  {
    hide BuildUpTo, Block, Schedule, After, Commit, Run;
    var evs := [Start(w1, c1), Start(w2, c2), Finish(w1), Finish(w2)];
    assert [] + [evs[0]] == evs[..1] && evs[..1] + [evs[1]] == evs[..2] && evs[..2] + [evs[2]] == evs[..3]
           && evs[..3] + [evs[3]] == evs;
    DraftNonEmpty(c1.mode, s.log, c1.facts, |c1.facts|, c1.ctx);
    DraftNonEmpty(c2.mode, s.log, c2.facts, |c2.facts|, c2.ctx);
    AfterSnoc(s, [], evs[0]);
    var s1 := StartDrafts(s, [], w1, c1);
    var s2 := StartDrafts(s, evs[..1], w2, c2);
    AfterSnoc(s, evs[..2], evs[2]);
    FinishCommits(s2, w1);
    AfterSnoc(s, evs[..3], evs[3]);
    FinishCommits(After(s, evs[..3]), w2);
  }

  /** Interleaved snapshots lose supersession: of two bare calls, each of which alone would keep one
      live assert a key, begun before either appends, the second to append leaves two for some key
      if and only if the two calls assert a key in common. */
  lemma {:induction false} TwoWritersKeepOneLiveIff(s: World, w1: nat, c1: Call, w2: nat, c2: Call)
    requires Inv(s) && OneLive(s.log) && w1 != w2 && s.At(w1).Idle? && s.At(w2).Idle? && c1.facts != []
             && c2.facts != []
    requires BuildAll(c1.mode, s.log, c1.facts, c1.ctx).Built? && BuildAll(c2.mode, s.log, c2.facts, c2.ctx).Built?
    requires BareCall(c1.facts) && BareCall(c2.facts) && NoDup(OpenKeys(c1.facts)) && NoDup(OpenKeys(c2.facts))
    ensures OneLive(After(s, [Start(w1, c1), Start(w2, c2), Finish(w1), Finish(w2)]).log) <==>
            forall k :: k in OpenKeys(c1.facts) ==> k !in OpenKeys(c2.facts)
  {
    hide BuildUpTo, After, Commit, LiveKeys, OpenKeys, NoDup, MaxTx, Inv, OneLive, Bare;
    var d1, d2 := BuildAll(c1.mode, s.log, c1.facts, c1.ctx).draft, BuildAll(c2.mode, s.log, c2.facts, c2.ctx).draft;
    var mid := LogAfterCall(s.log, c1);
    TwoSnapshots(s, w1, c1, w2, c2);
    InvHasLog(s);
    BareCallsOneLiveIff(c1.mode, s.log, c1.facts, c1.ctx);
    BareCallsOneLiveIff(c2.mode, s.log, c2.facts, c2.ctx);
    DraftCommittable(c1.mode, s.log, c1.facts, c1.ctx);
    DraftCommittable(c2.mode, s.log, c2.facts, c2.ctx);
    DraftBare(c1.mode, s.log, c1.facts, |c1.facts|, c1.ctx);
    CommitWellFormed(s.log, d1);
    CommitLength(s.log, d1);
    forall i | 0 <= i < |s.log| ensures mid[i].tx == s.log[i].tx {
      CommitAt(s.log, d1, i);
    }
    StillCommittable(s.log, mid, d2);
    CommitKeepsOneLiveIff(mid, d2);
    DraftLive(c1.mode, s.log, c1.facts, |c1.facts|, c1.ctx);
    DraftLive(c2.mode, s.log, c2.facts, |c2.facts|, c2.ctx);
    assert c1.facts[..|c1.facts|] == c1.facts && c2.facts[..|c2.facts|] == c2.facts;
    UnseenAssertsStay(s.log, c1, c2);
  }

  /** Two open asserts of one key, each by a writer of its own that begins before the other appends. */
  lemma {:induction false} InterleavedWritersLeaveTwoLive(f1: Fact, f2: Fact, ctx: Ctx)
    requires OpenAssert(f1) && OpenAssert(f2) && IsBare(f1.a) && f1.e == f2.e && f1.a == f2.a
    ensures var c1, c2 := Call(Scan, [f1], ctx), Call(Scan, [f2], ctx);
            !OneLive(After(World([], map[]), [Start(1, c1), Start(2, c2), Finish(1), Finish(2)]).log)
  {
    hide BuildUpTo, After, Inv, Bare, FindPrior;
    var s := World([], map[]);
    FreshWorld();
    FindPriorFound([], f1.e, f1.a);
    RefusalIsFirst(Scan, [], [f1], 1, ctx);
    RefusalIsFirst(Scan, [], [f2], 1, ctx);
    assert OpenKeys([f1]) == OpenKeys([f1][..0]) + [(f1.e, f1.a)];
    assert OpenKeys([f2]) == OpenKeys([f2][..0]) + [(f1.e, f1.a)];
    var c1, c2, k := Call(Scan, [f1], ctx), Call(Scan, [f2], ctx), (f1.e, f1.a);
    TwoWritersKeepOneLiveIff(s, 1, c1, 2, c2);
    assert k in OpenKeys(c1.facts) && k in OpenKeys(c2.facts);
  }

  /** What the first writer asserted after the second one's snapshot is not among what the second marks. */
  lemma {:induction false} UnseenAssertsStay(log: seq<Datom>, c1: Call, c2: Call)
    requires WellFormed(log) && OneLive(log) && BareCall(c2.facts)
    requires BuildAll(c1.mode, log, c1.facts, c1.ctx).Built? && BuildAll(c2.mode, log, c2.facts, c2.ctx).Built?
    ensures var d2 := BuildAll(c2.mode, log, c2.facts, c2.ctx).draft;
            AllMarked(LogAfterCall(log, c1), OpenKeys(c2.facts), x => x in d2.invalidations) <==>
            forall k :: k in OpenKeys(c1.facts) ==> k !in OpenKeys(c2.facts)
  {
    hide BuildUpTo, Commit, LiveKeys, OpenKeys, MaxTx, OneLive, Bare, Overwrites;
    var d1, d2 := BuildAll(c1.mode, log, c1.facts, c1.ctx).draft, BuildAll(c2.mode, log, c2.facts, c2.ctx).draft;
    var mid, keys := LogAfterCall(log, c1), OpenKeys(c2.facts);
    DraftCommittable(c1.mode, log, c1.facts, c1.ctx);
    CommitLength(log, d1);
    DraftLive(c1.mode, log, c1.facts, |c1.facts|, c1.ctx);
    assert c1.facts[..|c1.facts|] == c1.facts;
    forall i | 0 <= i < |log| && mid[i].Live() && (mid[i].e, mid[i].a) in keys ensures mid[i].tx in d2.invalidations {
      CommitAt(log, d1, i);
      OldKeysAreOverwritten(c2.mode, log, c2.facts, c2.ctx);
      InvalidationsAre(c2.mode, log, c2.facts, |c2.facts|, c2.ctx, log[i].tx);
    }
    forall i | 0 <= i < |d1.datoms|
      ensures var m := mid[|log| + i];
              && m.tx !in d2.invalidations && m.e == d1.datoms[i].e && m.a == d1.datoms[i].a
              && (m.Live() <==> d1.datoms[i].Live())
    {
      CommitAt(log, d1, |log| + i);
      NewIdIsUnseen(c2, log);
    }
    NewKeys(log, mid, d1, keys);
    forall i | |log| <= i < |mid| ensures mid[i].tx !in d2.invalidations {
      var j := i - |log|;
      assert mid[|log| + j].e == d1.datoms[j].e;
    }
    assert AllMarked(mid, keys, x => x in d2.invalidations) <==>
           forall i :: |log| <= i < |mid| && mid[i].Live() ==> (mid[i].e, mid[i].a) !in keys;
  }

  lemma {:induction false} NewIdIsUnseen(c: Call, log: seq<Datom>)
    requires WellFormed(log) && BuildAll(c.mode, log, c.facts, c.ctx).Built?
    ensures NextTx(log) !in BuildAll(c.mode, log, c.facts, c.ctx).draft.invalidations
  {
    hide BuildUpTo, MaxTx;
    InvalidationsAreOld(c.mode, log, c.facts, |c.facts|, c.ctx);
    assert log != [] ==> log[0].tx >= 1;
  }

  /** Helper: of the live asserts of `mid`, those appended to `log` are under `keys` exactly when the
      draft's are. */
  lemma {:induction false} NewKeys(log: seq<Datom>, mid: seq<Datom>, d: Draft, keys: seq<Key>)
    requires |mid| == |log| + |d.datoms|
    requires forall i :: 0 <= i < |d.datoms| ==>
               var m := mid[|log| + i];
               m.e == d.datoms[i].e && m.a == d.datoms[i].a && (m.Live() <==> d.datoms[i].Live())
    ensures (forall i :: |log| <= i < |mid| && mid[i].Live() ==> (mid[i].e, mid[i].a) !in keys) <==>
            forall k :: k in LiveKeys(d.datoms) ==> k !in keys
  {
    hide LiveKeys;
    forall k | k in LiveKeys(d.datoms) && k in keys
      ensures exists i :: |log| <= i < |mid| && mid[i].Live() && (mid[i].e, mid[i].a) in keys
    {
      LiveKeyAt(d.datoms, k);
      var i :| 0 <= i < |d.datoms| && d.datoms[i].Live() && (d.datoms[i].e, d.datoms[i].a) == k;
      assert mid[|log| + i].Live();
    }
    forall i | |log| <= i < |mid| && mid[i].Live() ensures (mid[i].e, mid[i].a) in LiveKeys(d.datoms) {
      assert mid[i] == mid[|log| + (i - |log|)];
      LiveKeyIn(d.datoms, i - |log|);
    }
  }

  lemma {:induction false} InvHasLog(s: World)
    requires Inv(s)
    ensures WellFormed(s.log)
  {}

  lemma {:induction false} StillCommittable(log: seq<Datom>, later: seq<Datom>, d: Draft)
    requires Committable(log, d) && |log| <= |later| && WellFormed(later)
    requires forall i :: 0 <= i < |log| ==> later[i].tx == log[i].tx
    ensures Committable(later, d)
  {
    assert MaxTx(log) <= MaxTx(later) by {
      if log != [] {
        var i :| 0 <= i < |log| && log[i].tx == MaxTx(log);
        assert later[i].tx == log[i].tx;
      } else if later != [] {
        assert later[0].tx >= 1;
      }
    }
  }
}
