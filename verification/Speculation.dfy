/** Speculate, score, pick, roll back: `fold_into` over `DB.fork`
    (src/persistence/sdk/_fold_into.py and src/persistence/fact/_fork.py).
    The reducer and the chooser are the caller's functions; the transaction is the list of audit intents
    and the list of staged facts the two layers append to. */
module Speculation {
  import opened Wrappers
  import opened Datoms

  /** A broken contract of the reducer: not a triple, facts that are no list, no finite number. */
  datatype Violation = WrongShape | FactsNotAList | BadScore

  /** What the caller's reducer does on one item. */
  datatype Attempt<+A> = Good(acc: A, facts: seq<Fact>, score: real) | Violates(what: Violation)
                       | Raises(message: string)

  /** What the caller's `choose` does. */
  datatype Choice = ChooseRaised(message: string) | NotAnInt | Index(i: int)

  datatype OnError = Abort | Skip | Checkpoint

  /** One element of the list `choose` sees. */
  datatype BranchScore<+I, +A> = BranchScore(item: I, score: real, accumulatorAfter: A)

  /** One branch as `DB.fork` records it. */
  datatype BranchResult<+I, +A> = BranchResult(index: nat, item: I, state: A, failed: bool)

  /** The audit datoms queued on the transaction. A hash stands for what it is taken of, and a branch
      id for the item and state it is taken of. */
  datatype Intent<+I, +A> = Probe(seed: A, items: seq<I>, count: nat) | Branch(index: nat, item: I, state: A)
                          | Score(index: nat, payload: A) | Chosen(index: nat, item: I, state: A)

  /** The arguments of one call. The reducer may answer by how often it was called. */
  datatype Job<!I, !A> = Job(seed: A, items: seq<I>, fn: (A, I, nat) -> Attempt<A>,
                           choose: seq<BranchScore<I, A>> -> Choice, onError: OnError, checkpointEvery: nat)

  datatype ChooseFault = ByUser(message: string) | ByReducer(what: Violation) | ChoseNoInt | ChoseOutOfRange(i: int)

  datatype Folded<+A> = FoldIntoResult(chosenIndex: nat, chosenScore: real, allScores: seq<real>, chosenAccumulator: A,
                                       finalAccumulator: A, committed: nat)
                      | OutsideDosync | ValueError | ChooseError(fault: ChooseFault) | ReducerRaised(message: string)

  /** The open transaction: `tx.effect` and `tx.add_facts` append to it. */
  class Transaction<I, A> {
    var intents: seq<Intent<I, A>>
    var staged: seq<Fact>

    constructor ()
      ensures intents == [] && staged == []
    {
      intents, staged := [], [];
    }

    method Effect(intent: Intent<I, A>)
      modifies this`intents
      ensures intents == old(intents) + [intent]
    {
      intents := intents + [intent];
    }

    method AddFacts(facts: seq<Fact>)
      modifies this`staged
      ensures staged == old(staged) + facts
    {
      staged := staged + facts;
    }
  }

  // ---- The branches -----------------------------------------------------------------------------

  function Tried<I, A>(job: Job<I, A>, k: nat): Attempt<A>
    requires k < |job.items|
  {
    job.fn(job.seed, job.items[k], k)
  }

  /** What the closures of `fold_into` have captured. */
  datatype Captured<+A> = Captured(facts: map<nat, seq<Fact>>, scores: map<nat, real>, accs: map<nat, A>,
                                   violations: seq<Violation>)

  function CaptureOne<A>(c: Captured<A>, k: nat, attempt: Attempt<A>): Captured<A> {
    match attempt
    case Good(acc, facts, score) =>
      c.(facts := c.facts[k := facts], scores := c.scores[k := score], accs := c.accs[k := acc])
    case Violates(what) => c.(violations := c.violations + [what])
    case Raises(_) => c
  }

  function CapturedUpTo<I, A>(job: Job<I, A>, n: nat): Captured<A>
    requires n <= |job.items|
  {
    if n == 0 then Captured(map[], map[], map[], [])
    else CaptureOne(CapturedUpTo(job, n - 1), n - 1, Tried(job, n - 1))
  }

  /** The branch `DB.fork` records; a failed one keeps the seed. */
  function BranchOf<I, A>(job: Job<I, A>, k: nat): BranchResult<I, A>
    requires k < |job.items|
  {
    var t := Tried(job, k);
    BranchResult(k, job.items[k], if t.Good? then t.acc else job.seed, !t.Good?)
  }

  function Branches<I, A>(job: Job<I, A>, n: nat): (r: seq<BranchResult<I, A>>)
    requires n <= |job.items|
    ensures |r| == n && forall k :: 0 <= k < n ==> r[k] == BranchOf(job, k)
  {
    if n == 0 then [] else Branches(job, n - 1) + [BranchOf(job, n - 1)]
  }

  function Stops(o: OnError): bool {
    !o.Skip?
  }

  /** The first branch that fails among the first `n`, when a failure stops the fork. */
  function FirstFailure<I, A>(job: Job<I, A>, n: nat): (f: Option<nat>)
    requires n <= |job.items|
    ensures f.Some? ==> f.value < n && !Tried(job, f.value).Good? && Stops(job.onError)
    ensures f.Some? ==> forall k :: 0 <= k < f.value ==> Tried(job, k).Good?
    ensures f.None? ==> !Stops(job.onError) || forall k :: 0 <= k < n ==> Tried(job, k).Good?
  {
    if n == 0 then None
    else
      var f := FirstFailure(job, n - 1);
      if f.Some? then f
      else if Stops(job.onError) && !Tried(job, n - 1).Good? then Some(n - 1)
      else None
  }

  function BranchIntents<I, A>(bs: seq<BranchResult<I, A>>): (r: seq<Intent<I, A>>)
    ensures |r| == |bs| && forall k :: 0 <= k < |bs| ==> r[k] == Branch(bs[k].index, bs[k].item, bs[k].state)
  {
    if bs == [] then []
    else
      var b := bs[|bs| - 1];
      BranchIntents(bs[..|bs| - 1]) + [Branch(b.index, b.item, b.state)]
  }

  function ScoreIntents<I, A>(bs: seq<BranchResult<I, A>>): (r: seq<Intent<I, A>>)
    ensures |r| == |bs| && forall k :: 0 <= k < |bs| ==> r[k] == Score(bs[k].index, bs[k].state)
  {
    if bs == [] then []
    else
      var b := bs[|bs| - 1];
      ScoreIntents(bs[..|bs| - 1]) + [Score(b.index, b.state)]
  }

  // ---- The two choices ------------------------------------------------------------------------------

  /** The branches that did not fail, in order. */
  function Successes<I, A>(bs: seq<BranchResult<I, A>>): (r: seq<nat>)
    ensures forall j :: 0 <= j < |r| ==> exists k :: 0 <= k < |bs| && !bs[k].failed && bs[k].index == r[j]
  {
    if bs == [] then []
    else
      var b := bs[|bs| - 1];
      Successes(bs[..|bs| - 1]) + if b.failed then [] else [b.index]
  }

  /** The list shown to the caller's `choose`. */
  function ScoreList<I, A>(bs: seq<BranchResult<I, A>>, c: Captured<A>): seq<BranchScore<I, A>>
    requires forall k :: 0 <= k < |bs| && !bs[k].failed ==> bs[k].index in c.scores && bs[k].index in c.accs
  {
    if bs == [] then []
    else
      var b := bs[|bs| - 1];
      ScoreList(bs[..|bs| - 1], c)
      + if b.failed then [] else [BranchScore(b.item, c.scores[b.index], c.accs[b.index])]
  }

  /** `sorted(d.keys())` for keys below `n`. */
  function SortedKeys(m: map<nat, real>, n: nat): seq<nat> {
    if n == 0 then [] else SortedKeys(m, n - 1) + if n - 1 in m then [n - 1] else []
  }

  function ScoresAt(m: map<nat, real>, keys: seq<nat>): (r: seq<real>)
    requires forall j :: 0 <= j < |keys| ==> keys[j] in m
    ensures |r| == |keys| && forall j :: 0 <= j < |keys| ==> r[j] == m[keys[j]]
  {
    if keys == [] then [] else ScoresAt(m, keys[..|keys| - 1]) + [m[keys[|keys| - 1]]]
  }

  lemma {:induction false} CapturedAt<I, A>(job: Job<I, A>, n: nat, k: nat)
    requires n <= |job.items|
    ensures var c := CapturedUpTo(job, n);
            && (k in c.scores <==> k < n && Tried(job, k).Good?)
            && (k in c.accs <==> k in c.scores) && (k in c.facts <==> k in c.scores)
            && (k in c.scores ==> c.scores[k] == Tried(job, k).score && c.accs[k] == Tried(job, k).acc
                                  && c.facts[k] == Tried(job, k).facts)
  {
    if n > 0 {
      CapturedAt(job, n - 1, k);
    }
  }

  /** The keys the dicts are sorted by are the branches that did not fail. */
  lemma {:induction false} KeysAreSuccesses<I, A>(job: Job<I, A>, m: map<nat, real>, n: nat)
    requires n <= |job.items| && forall k :: 0 <= k < n ==> (k in m <==> Tried(job, k).Good?)
    ensures SortedKeys(m, n) == Successes(Branches(job, n))
  {
    if n > 0 {
      KeysAreSuccesses(job, m, n - 1);
      assert Branches(job, n)[..n - 1] == Branches(job, n - 1);
    }
  }

  lemma {:induction false} AllCaptured<I, A>(job: Job<I, A>)
    ensures var n := |job.items|;
            && (forall k :: 0 <= k < n && !Branches(job, n)[k].failed ==>
                  k in CapturedUpTo(job, n).scores && k in CapturedUpTo(job, n).accs && k in CapturedUpTo(job, n).facts)
            && SortedKeys(CapturedUpTo(job, n).scores, n) == Successes(Branches(job, n))
            && forall j :: 0 <= j < |Successes(Branches(job, n))| ==>
                 Successes(Branches(job, n))[j] < n && Successes(Branches(job, n))[j] in CapturedUpTo(job, n).scores
  {
    var n := |job.items|;
    forall k: nat
      ensures k in CapturedUpTo(job, n).scores <==> k < n && Tried(job, k).Good?
      ensures k in CapturedUpTo(job, n).scores ==> k in CapturedUpTo(job, n).accs && k in CapturedUpTo(job, n).facts
    {
      CapturedAt(job, n, k);
    }
    KeysAreSuccesses(job, CapturedUpTo(job, n).scores, n);
  }

  /** What `choose_wrapper` answers: a branch of `DB.fork`, or what it raises. */
  datatype Picked = Fork(branch: nat) | AllSkipped | UserRaised(message: string) | NoInt | OutOfRange(i: int)

  function PickFrom<I, A>(job: Job<I, A>, keys: seq<nat>, list: seq<BranchScore<I, A>>): Picked
    requires |keys| == |list|
  {
    if list == [] then AllSkipped
    else
      match job.choose(list)
      case ChooseRaised(m) => UserRaised(m)
      case NotAnInt => NoInt
      case Index(i) => if i < 0 || i >= |list| then OutOfRange(i) else Fork(keys[i])
  }

  lemma {:induction false} ScoreListLength<I, A>(bs: seq<BranchResult<I, A>>, c: Captured<A>)
    requires forall k :: 0 <= k < |bs| && !bs[k].failed ==> bs[k].index in c.scores && bs[k].index in c.accs
    ensures |ScoreList(bs, c)| == |Successes(bs)|
    ensures forall j :: 0 <= j < |Successes(bs)| ==>
              Successes(bs)[j] in c.scores && Successes(bs)[j] in c.accs
              && ScoreList(bs, c)[j].score == c.scores[Successes(bs)[j]]
              && ScoreList(bs, c)[j].accumulatorAfter == c.accs[Successes(bs)[j]]
  {
    if bs != [] {
      ScoreListLength(bs[..|bs| - 1], c);
    }
  }

  /** How `fold_into` reclassifies what came out of `choose_wrapper`. */
  function Fault(p: Picked, violations: seq<Violation>): ChooseFault
    requires p.UserRaised? || p.NoInt? || p.OutOfRange?
  {
    match p
    case UserRaised(m) => ByUser(m)
    case NoInt => if violations != [] then ByReducer(violations[0]) else ChoseNoInt
    case OutOfRange(i) => if violations != [] then ByReducer(violations[0]) else ChoseOutOfRange(i)
  }

  /** `list.index`. */
  function IndexIn(keys: seq<nat>, x: nat): (i: nat)
    requires x in keys
    ensures i < |keys| && keys[i] == x && forall j :: 0 <= j < i ==> keys[j] != x
  {
    if keys[0] == x then 0 else 1 + IndexIn(keys[1..], x)
  }

  predicate InAll<A>(c: Captured<A>, keys: seq<nat>) {
    forall j :: 0 <= j < |keys| ==> keys[j] in c.scores && keys[j] in c.accs && keys[j] in c.facts
  }

  /** The result `fold_into` assembles from its dicts. */
  function Assembled<A>(c: Captured<A>, keys: seq<nat>, chosen: nat): Folded<A>
    requires chosen in keys && InAll(c, keys)
  {
    FoldIntoResult(IndexIn(keys, chosen), c.scores[chosen], ScoresAt(c.scores, keys), c.accs[chosen],
                   c.accs[keys[|keys| - 1]], |c.facts[chosen]|)
  }

  datatype Effects<+I, +A> = Effects(outcome: Folded<A>, intents: seq<Intent<I, A>>, staged: seq<Fact>)

  /** The probe, branch and score intents, in the order queued. */
  function Audit<I, A>(job: Job<I, A>): seq<Intent<I, A>> {
    var bs := Branches(job, |job.items|);
    [Probe(job.seed, job.items, |bs|)] + BranchIntents(bs) + ScoreIntents(bs)
  }

  /** What `choose_wrapper` makes of the branches that have run. */
  function Choose<I, A>(job: Job<I, A>): (p: Picked)
    ensures p.Fork? ==>
              p.branch < |job.items| && p.branch in SortedKeys(CapturedUpTo(job, |job.items|).scores, |job.items|)
  {
    var bs, c := Branches(job, |job.items|), CapturedUpTo(job, |job.items|);
    AllCaptured(job);
    ScoreListLength(bs, c);
    PickFrom(job, Successes(bs), ScoreList(bs, c))
  }

  /** Every sorted key is in every dict. */
  lemma {:induction false} KeysCaptured<I, A>(job: Job<I, A>)
    ensures var c, n := CapturedUpTo(job, |job.items|), |job.items|;
            InAll(c, SortedKeys(c.scores, n))
  {
    hide CapturedUpTo, SortedKeys, Successes;
    AllCaptured(job);
    var c, n := CapturedUpTo(job, |job.items|), |job.items|;
    var keys := SortedKeys(c.scores, n);
    forall j | 0 <= j < |keys| ensures keys[j] in c.scores && keys[j] in c.accs && keys[j] in c.facts {
      CapturedAt(job, n, keys[j]);
    }
  }

  /** The call once every branch has run. */
  function Settled<I, A>(job: Job<I, A>): Effects<I, A> {
    var c := CapturedUpTo(job, |job.items|);
    KeysCaptured(job);
    match Choose(job)
    case AllSkipped => Effects(ValueError, Audit(job), [])
    case Fork(b) =>
      var chosen := BranchOf(job, b);
      Effects(Assembled(c, SortedKeys(c.scores, |job.items|), b), Audit(job) + [Chosen(b, chosen.item, chosen.state)],
              c.facts[b])
    case p => Effects(ChooseError(Fault(p, c.violations)), Audit(job), [])
  }

  /** `fold_into`: what it returns or raises, and what it appends to the transaction. */
  function FoldIntoOf<I, A>(job: Job<I, A>, inDosync: bool): Effects<I, A> {
    if !inDosync then Effects(OutsideDosync, [], [])
    else if job.checkpointEvery != 0 || job.items == [] then Effects(ValueError, [], [])
    else
      match FirstFailure(job, |job.items|)
      case None => Settled(job)
      case Some(k) =>
        var t := Tried(job, k);
        if t.Violates? then Effects(ChooseError(ByReducer(t.what)), [], [])
        else Effects(ReducerRaised(t.message), [], [])
  }

  // ---- What the caller may rely on --------------------------------------------------------------------

  /** The branches whose reducer succeeded, in order. */
  function GoodBranches<I, A>(job: Job<I, A>, n: nat): (r: seq<nat>)
    requires n <= |job.items|
    ensures forall j :: 0 <= j < |r| ==> r[j] < n && Tried(job, r[j]).Good?
    ensures forall i, j :: 0 <= i < j < |r| ==> r[i] < r[j]
    ensures forall k :: 0 <= k < n && Tried(job, k).Good? ==> k in r
  {
    if n == 0 then [] else GoodBranches(job, n - 1) + if Tried(job, n - 1).Good? then [n - 1] else []
  }

  function ShownUpTo<I, A>(job: Job<I, A>, n: nat): (r: seq<BranchScore<I, A>>)
    requires n <= |job.items|
    ensures |r| == |GoodBranches(job, n)|
    ensures forall j :: 0 <= j < |r| ==>
              var k := GoodBranches(job, n)[j];
              r[j] == BranchScore(job.items[k], Tried(job, k).score, Tried(job, k).acc)
  {
    if n == 0 then []
    else
      var t := Tried(job, n - 1);
      ShownUpTo(job, n - 1) + if t.Good? then [BranchScore(job.items[n - 1], t.score, t.acc)] else []
  }

  /** The list `choose` is shown: the successes, in order. */
  function Shown<I, A>(job: Job<I, A>): seq<BranchScore<I, A>> {
    ShownUpTo(job, |job.items|)
  }

  lemma {:induction false} SuccessesAreGood<I, A>(job: Job<I, A>, n: nat)
    requires n <= |job.items|
    ensures Successes(Branches(job, n)) == GoodBranches(job, n)
  {
    if n > 0 {
      SuccessesAreGood(job, n - 1);
      assert Branches(job, n)[..n - 1] == Branches(job, n - 1);
    }
  }

  lemma {:induction false} ItemsShown<I, A>(job: Job<I, A>, c: Captured<A>, n: nat)
    requires n <= |job.items|
    requires forall k :: 0 <= k < n && Tried(job, k).Good? ==>
               (k in c.scores && k in c.accs && c.scores[k] == Tried(job, k).score && c.accs[k] == Tried(job, k).acc)
    ensures ScoreList(Branches(job, n), c) == ShownUpTo(job, n)
  {
    hide GoodBranches, Tried;
    if n > 0 {
      ItemsShown(job, c, n - 1);
      assert Branches(job, n)[..n - 1] == Branches(job, n - 1);
    }
  }

  lemma {:induction false} ScoreListIsShown<I, A>(job: Job<I, A>)
    ensures forall k :: 0 <= k < |job.items| && !Branches(job, |job.items|)[k].failed ==>
              k in CapturedUpTo(job, |job.items|).scores && k in CapturedUpTo(job, |job.items|).accs
    ensures ScoreList(Branches(job, |job.items|), CapturedUpTo(job, |job.items|)) == Shown(job)
  {
    var n := |job.items|;
    forall k | 0 <= k < n && Tried(job, k).Good?
      ensures var c := CapturedUpTo(job, n);
              k in c.scores && k in c.accs && c.scores[k] == Tried(job, k).score && c.accs[k] == Tried(job, k).acc
    {
      CapturedAt(job, n, k);
    }
    ItemsShown(job, CapturedUpTo(job, n), n);
  }

  /** The call succeeds exactly when it is inside a transaction, has items and no checkpoint size, no
      failing branch stops it, some branch succeeds, and `choose` picks an index of the list it is
      shown. A broken reducer contract is such a failure: under "skip" it passes unnoticed. */
  ghost predicate Succeeds<I, A>(job: Job<I, A>, inDosync: bool) {
    && inDosync && job.checkpointEvery == 0 && job.items != []
    && (job.onError.Skip? || forall k :: 0 <= k < |job.items| ==> Tried(job, k).Good?)
    && Shown(job) != []
    && job.choose(Shown(job)).Index? && 0 <= job.choose(Shown(job)).i < |Shown(job)|
  }

  lemma {:induction false} ChoosesFromShown<I, A>(job: Job<I, A>)
    ensures Choose(job) == PickFrom(job, GoodBranches(job, |job.items|), Shown(job))
  {
    hide ScoreList, Successes, Branches, CapturedUpTo, Tried, GoodBranches, ShownUpTo, PickFrom, SortedKeys;
    AllCaptured(job);
    ScoreListIsShown(job);
    SuccessesAreGood(job, |job.items|);
    ScoreListLength(Branches(job, |job.items|), CapturedUpTo(job, |job.items|));
  }

  lemma {:induction false} SucceedsIff<I, A>(job: Job<I, A>, inDosync: bool)
    ensures FoldIntoOf(job, inDosync).outcome.FoldIntoResult? <==> Succeeds(job, inDosync)
  {
    hide Choose, SortedKeys, CapturedUpTo, Tried, GoodBranches, ShownUpTo, IndexIn, ScoresAt, Audit;
    ChoosesFromShown(job);
  }

  /** Where a successful call comes from: the branch at the index `choose` returned. */
  lemma {:induction false} SettledOnIndex<I, A>(job: Job<I, A>, i: nat)
    requires i < |Shown(job)| && job.choose(Shown(job)) == Index(i)
    ensures var n := |job.items|;
            var c, b := CapturedUpTo(job, n), GoodBranches(job, n)[i];
            && b < n && SortedKeys(c.scores, n) == GoodBranches(job, n)
            && InAll(c, GoodBranches(job, n)) && b in c.facts
            && Settled(job) == Effects(Assembled(c, GoodBranches(job, n), b),
                                       Audit(job) + [Chosen(b, BranchOf(job, b).item, BranchOf(job, b).state)],
                                       c.facts[b])
  {
    hide Choose, Successes, SortedKeys, Branches, CapturedUpTo, Tried, GoodBranches, ShownUpTo, Assembled, Audit,
      BranchOf;
    ChoosesFromShown(job);
    AllCaptured(job);
    KeysCaptured(job);
    SuccessesAreGood(job, |job.items|);
  }

  lemma {:induction false} AssembledAt<I, A>(job: Job<I, A>, i: nat)
    requires i < |GoodBranches(job, |job.items|)|
    ensures var n := |job.items|;
            var good, c := GoodBranches(job, n), CapturedUpTo(job, n);
            && InAll(c, good) && good[i] in c.facts
            && c.facts[good[i]] == Tried(job, good[i]).facts
            && var r := Assembled(c, good, good[i]);
               && r.chosenIndex == i && |r.allScores| == |good|
               && (forall j :: 0 <= j < |good| ==> r.allScores[j] == Tried(job, good[j]).score)
               && r.chosenScore == Tried(job, good[i]).score && r.chosenAccumulator == Tried(job, good[i]).acc
               && r.finalAccumulator == Tried(job, good[|good| - 1]).acc && r.committed == |Tried(job, good[i]).facts|
  {
    hide GoodBranches, CapturedUpTo, Tried, IndexIn, ScoresAt;
    var n := |job.items|;
    var good, c := GoodBranches(job, n), CapturedUpTo(job, n);
    forall j | 0 <= j < |good|
      ensures good[j] in c.scores && c.scores[good[j]] == Tried(job, good[j]).score
      ensures good[j] in c.accs && c.accs[good[j]] == Tried(job, good[j]).acc
      ensures good[j] in c.facts && c.facts[good[j]] == Tried(job, good[j]).facts
    {
      CapturedAt(job, n, good[j]);
    }
    IndexOfMember(good, i);
  }

  /** On success the index reported is the one `choose` returned: it names the chosen branch among the
      successes, and the scores, the accumulator and the staged facts are that branch's. */
  lemma {:induction false} ReportsTheChosenBranch<I, A>(job: Job<I, A>)
    requires Succeeds(job, true)
    ensures var e, good := FoldIntoOf(job, true), GoodBranches(job, |job.items|);
            var r := e.outcome;
            && r.FoldIntoResult?
            && job.choose(Shown(job)) == Index(r.chosenIndex) && r.chosenIndex < |good| == |r.allScores|
            && (forall j :: 0 <= j < |good| ==> r.allScores[j] == Tried(job, good[j]).score)
            && r.allScores[r.chosenIndex] == r.chosenScore
            && r.chosenAccumulator == Tried(job, good[r.chosenIndex]).acc
            && r.finalAccumulator == Tried(job, good[|good| - 1]).acc
            && e.staged == Tried(job, good[r.chosenIndex]).facts && r.committed == |e.staged|
  {
    hide Settled, GoodBranches, Tried, Assembled, ShownUpTo, CapturedUpTo, SortedKeys, Audit, Branches;
    SucceedsIff(job, true);
    var i := job.choose(Shown(job)).i;
    SettledOnIndex(job, i);
    AssembledAt(job, i);
  }

  lemma {:induction false} AuditAt<I, A>(job: Job<I, A>)
    ensures var a, n := Audit(job), |job.items|;
            && |a| == 1 + 2 * n && a[0] == Probe(job.seed, job.items, n)
            && forall k :: 0 <= k < n ==>
                 a[1 + k] == Branch(k, job.items[k], BranchOf(job, k).state)
                   && a[1 + n + k] == Score(k, BranchOf(job, k).state)
  {
    hide Branches, BranchIntents, ScoreIntents, Tried;
  }

  lemma {:induction false} GoodState<I, A>(job: Job<I, A>, b: nat)
    requires b < |job.items| && Tried(job, b).Good?
    ensures BranchOf(job, b).state == Tried(job, b).acc && BranchOf(job, b).item == job.items[b]
  {}

  /** On success the intents queued are one probe, N branches, N scores and one chosen, in that order.
      The score datoms carry the branch states: the numbers themselves are not audited. */
  lemma {:induction false} AuditsInOrder<I, A>(job: Job<I, A>)
    requires Succeeds(job, true)
    ensures var e, n := FoldIntoOf(job, true), |job.items|;
            && |e.intents| == 2 + 2 * n && e.outcome.FoldIntoResult? && e.outcome.chosenIndex < |GoodBranches(job, n)|
            && e.intents[0] == Probe(job.seed, job.items, n)
            && (forall k :: 0 <= k < n ==>
                  && e.intents[1 + k] == Branch(k, job.items[k], BranchOf(job, k).state)
                  && e.intents[1 + n + k] == Score(k, BranchOf(job, k).state))
            && var b := GoodBranches(job, n)[e.outcome.chosenIndex];
               e.intents[1 + 2 * n] == Chosen(b, job.items[b], Tried(job, b).acc)
  {
    hide Settled, GoodBranches, Assembled, ShownUpTo, CapturedUpTo, SortedKeys, Audit, BranchOf, Tried;
    SucceedsIff(job, true);
    var i := job.choose(Shown(job)).i;
    SettledOnIndex(job, i);
    AssembledAt(job, i);
    AuditAt(job);
    GoodState(job, GoodBranches(job, |job.items|)[i]);
  }

  lemma {:induction false} IndexOfMember(keys: seq<nat>, i: nat)
    requires i < |keys| && forall a, b :: 0 <= a < b < |keys| ==> keys[a] < keys[b]
    ensures keys[i] in keys && IndexIn(keys, keys[i]) == i
  {}

  /** A call that does not succeed stages nothing; and if a branch stopped it, or it never began,
      it queues nothing either, while a failure of `choose` leaves the probe, branch and score
      intents behind. */
  lemma {:induction false} FailuresStageNothing<I, A>(job: Job<I, A>, inDosync: bool)
    requires !Succeeds(job, inDosync)
    ensures var e := FoldIntoOf(job, inDosync);
            && e.staged == []
            && e.intents == if inDosync && job.checkpointEvery == 0 && job.items != []
                               && (job.onError.Skip? || forall k :: 0 <= k < |job.items| ==> Tried(job, k).Good?)
                            then Audit(job) else []
  {
    hide Choose, SortedKeys, CapturedUpTo, Tried, GoodBranches, IndexIn, ScoresAt, Audit, ShownUpTo;
    SucceedsIff(job, inDosync);
  }

  /** Every item is tried on the seed, once and by its position; a branch that fails keeps the seed as its state. */
  lemma {:induction false} BranchesStartFromTheSeed<I, A>(job: Job<I, A>, k: nat)
    requires k < |job.items|
    ensures Tried(job, k) == job.fn(job.seed, job.items[k], k)
    ensures BranchOf(job, k).index == k && BranchOf(job, k).item == job.items[k]
    ensures match job.fn(job.seed, job.items[k], k)
            case Good(acc, _, _) => BranchOf(job, k).state == acc && !BranchOf(job, k).failed
            case _ => BranchOf(job, k).state == job.seed && BranchOf(job, k).failed
  {}

  /** The violations captured are those of the branches, in order: their first is that of the first branch that
      broke the contract. */
  lemma {:induction false} FirstViolation<I, A>(job: Job<I, A>, n: nat)
    requires n <= |job.items|
    ensures var vs := CapturedUpTo(job, n).violations;
            && (vs == [] <==> forall k :: 0 <= k < n ==> !Tried(job, k).Violates?)
            && (vs != [] ==> exists k :: 0 <= k < n && Tried(job, k) == Violates(vs[0])
                                         && forall j :: 0 <= j < k ==> !Tried(job, j).Violates?)
  {
    hide Tried;
    if n > 0 {
      FirstViolation(job, n - 1);
    }
  }

  /** Branch `k` broke the reducer's contract, by `what`, and none before it did. */
  ghost predicate BrokeFirst<I, A>(job: Job<I, A>, k: nat, what: Violation)
    requires k < |job.items|
  {
    Tried(job, k) == Violates(what) && forall j :: 0 <= j < k ==> !Tried(job, j).Violates?
  }

  /** How the choice is reported that ran but picked nothing: what `choose` raised; else the first broken contract
      of a branch, which is taken for the reason; else what was wrong with the answer. */
  ghost predicate ChoiceFailed<I, A>(job: Job<I, A>, outcome: Folded<A>) {
    match job.choose(Shown(job))
    case ChooseRaised(m) => outcome == ChooseError(ByUser(m))
    case NotAnInt =>
      || (exists k, what :: 0 <= k < |job.items| && BrokeFirst(job, k, what) && outcome == ChooseError(ByReducer(what)))
      || ((forall k :: 0 <= k < |job.items| ==> !Tried(job, k).Violates?) && outcome == ChooseError(ChoseNoInt))
    case Index(i) =>
      && !(0 <= i < |Shown(job)|)
      && (|| (exists k, what ::
                0 <= k < |job.items| && BrokeFirst(job, k, what) && outcome == ChooseError(ByReducer(what)))
          || ((forall k :: 0 <= k < |job.items| ==> !Tried(job, k).Violates?)
              && outcome == ChooseError(ChoseOutOfRange(i))))
  }

  lemma {:induction false} ChoiceFails<I, A>(job: Job<I, A>)
    requires Shown(job) != [] && !(job.choose(Shown(job)).Index? && 0 <= job.choose(Shown(job)).i < |Shown(job)|)
    ensures ChoiceFailed(job, Settled(job).outcome)
  {
    hide Choose, SortedKeys, CapturedUpTo, Tried, GoodBranches, IndexIn, ScoresAt, Audit, ShownUpTo, Assembled;
    ChoosesFromShown(job);
    var vs := CapturedUpTo(job, |job.items|).violations;
    FirstViolation(job, |job.items|);
    if vs != [] {
      var k :| 0 <= k < |job.items| && Tried(job, k) == Violates(vs[0])
               && forall j :: 0 <= j < k ==> !Tried(job, j).Violates?;
      assert BrokeFirst(job, k, vs[0]);
    }
  }

  /** What a call that does not succeed raises, in the order decided: outside a transaction; a checkpoint size or no
      items; the first branch that fails, if failures stop the call, by what it broke or raised; no branch
      left; a failed choice. */
  lemma {:induction false} WhyItFails<I, A>(job: Job<I, A>, inDosync: bool)
    requires !Succeeds(job, inDosync)
    ensures var outcome := FoldIntoOf(job, inDosync).outcome;
            if !inDosync then outcome == OutsideDosync
            else if job.checkpointEvery != 0 || |job.items| == 0 then outcome == ValueError
            else if job.onError != Skip && exists k :: 0 <= k < |job.items| && !Tried(job, k).Good? then
              exists k :: 0 <= k < |job.items| && (forall j :: 0 <= j < k ==> Tried(job, j).Good?)
                          && match Tried(job, k)
                             case Good(_, _, _) => false
                             case Violates(what) => outcome == ChooseError(ByReducer(what))
                             case Raises(m) => outcome == ReducerRaised(m)
            else if Shown(job) == [] then outcome == ValueError
            else ChoiceFailed(job, outcome)
  {
    hide Choose, SortedKeys, CapturedUpTo, Tried, GoodBranches, IndexIn, ScoresAt, Audit, ShownUpTo, Assembled, Fault,
         ChoiceFailed;
    if inDosync && job.checkpointEvery == 0 && job.items != [] && FirstFailure(job, |job.items|).None? {
      ChoosesFromShown(job);
      if Shown(job) != [] {
        ChoiceFails(job);
      }
    }
  }

  // ---- The two functions themselves -----------------------------------------------------------------------

  /** What leaves `fork_impl`: its result, or what was raised through it. */
  datatype Forked = Won(branch: nat) | ReducerStopped(at: nat) | ChooseStopped(picked: Picked)

  /** One call of `fold_into`: the dicts and lists its two closures share. */
  class FoldInto<I, A> {
    const job: Job<I, A>
    const tx: Transaction<I, A>
    var nextIdx: nat
    var facts: map<nat, seq<Fact>>
    var scores: map<nat, real>
    var accs: map<nat, A>
    var violations: seq<Violation>

    constructor (job: Job<I, A>, tx: Transaction<I, A>)
      ensures this.job == job && this.tx == tx && nextIdx == 0 && Dicts() == Captured(map[], map[], map[], [])
    {
      this.job, this.tx := job, tx;
      nextIdx, facts, scores, accs, violations := 0, map[], map[], map[], [];
    }

    ghost function Dicts(): Captured<A>
      reads this
    {
      Captured(facts, scores, accs, violations)
    }

    /** `wrapper_fn`: runs the caller's reducer and captures what it returned; None if it raised. */
    method WrapperFn(item: I) returns (state: Option<A>)
      modifies this
      ensures nextIdx == old(nextIdx) + 1
      ensures Dicts() == CaptureOne(old(Dicts()), old(nextIdx), job.fn(job.seed, item, old(nextIdx)))
      ensures var t := job.fn(job.seed, item, old(nextIdx)); state == if t.Good? then Some(t.acc) else None
    {
      var idx := nextIdx;
      nextIdx := nextIdx + 1;
      match job.fn(job.seed, item, idx) {
        case Good(acc, fs, score) =>
          facts, scores, accs := facts[idx := fs], scores[idx := score], accs[idx := acc];
          state := Some(acc);
        case Violates(what) =>
          violations := violations + [what];
          state := None;
        case Raises(_) =>
          state := None;
      }
    }

    /** `choose_wrapper`: shows the successes to the caller's `choose` and translates its index back. */
    method ChooseWrapper(bs: seq<BranchResult<I, A>>) returns (p: Picked)
      requires forall k :: 0 <= k < |bs| && !bs[k].failed ==> bs[k].index in scores && bs[k].index in accs
      ensures |ScoreList(bs, Dicts())| == |Successes(bs)|
      ensures p == PickFrom(job, Successes(bs), ScoreList(bs, Dicts()))
    {
      hide PickFrom;
      var successful: seq<nat>, list: seq<BranchScore<I, A>> := [], [];
      for k := 0 to |bs|
        invariant successful == Successes(bs[..k]) && list == ScoreList(bs[..k], Dicts())
      {
        assert bs[..k + 1][..k] == bs[..k];
        if bs[k].failed {
          continue;
        }
        successful := successful + [bs[k].index];
        list := list + [BranchScore(bs[k].item, scores[bs[k].index], accs[bs[k].index])];
      }
      assert bs[..|bs|] == bs;
      ScoreListLength(bs, Dicts());
      p := Pick(successful, list);
    }

    method Pick(successful: seq<nat>, list: seq<BranchScore<I, A>>) returns (p: Picked)
      requires |successful| == |list|
      ensures p == PickFrom(job, successful, list)
    {
      if list == [] {
        return AllSkipped;
      }
      match job.choose(list) {
        case ChooseRaised(m) => p := UserRaised(m);
        case NotAnInt => p := NoInt;
        case Index(i) => p := if i < 0 || i >= |list| then OutOfRange(i) else Fork(successful[i]);
      }
    }

    /** The branch loop of `fork_impl`; None when a failure stopped it. */
    method RunBranches() returns (bs: Option<seq<BranchResult<I, A>>>)
      requires nextIdx == 0 && Dicts() == Captured(map[], map[], map[], [])
      modifies this
      ensures match FirstFailure(job, |job.items|)
              case None => bs == Some(Branches(job, |job.items|)) && Dicts() == CapturedUpTo(job, |job.items|)
              case Some(k) => bs.None? && Dicts() == CapturedUpTo(job, k + 1)
    {
      hide CaptureOne;
      var n := |job.items|;
      var done: seq<BranchResult<I, A>> := [];
      for k := 0 to n
        invariant nextIdx == k && done == Branches(job, k) && Dicts() == CapturedUpTo(job, k)
        invariant FirstFailure(job, k).None?
      {
        var state := WrapperFn(job.items[k]);
        if state.None? && Stops(job.onError) {
          FailureStays(job, k + 1, n);
          return None;
        }
        done := done + [BranchResult(k, job.items[k], if state.Some? then state.value else job.seed, state.None?)];
      }
      bs := Some(done);
    }

    /** `fork_impl`, driven by the two closures. */
    method DoFork() returns (r: Forked)
      requires nextIdx == 0 && Dicts() == Captured(map[], map[], map[], []) && job.items != []
      modifies this, tx`intents
      ensures match FirstFailure(job, |job.items|)
              case Some(k) =>
                r == ReducerStopped(k) && tx.intents == old(tx.intents) && Dicts() == CapturedUpTo(job, k + 1)
              case None =>
                && Dicts() == CapturedUpTo(job, |job.items|)
                && match Choose(job)
                   case Fork(b) =>
                     var chosen := BranchOf(job, b);
                     r == Won(b) && tx.intents == old(tx.intents) + Audit(job) + [Chosen(b, chosen.item, chosen.state)]
                   case p => r == ChooseStopped(p) && tx.intents == old(tx.intents) + Audit(job)
    {
      hide FirstFailure, CapturedUpTo, Successes, ScoreList, SortedKeys, PickFrom;
      var ran := RunBranches();
      if ran.None? {
        return ReducerStopped(FirstFailure(job, |job.items|).value);
      }
      var bs := ran.value;
      EmitAudit(bs);
      AllCaptured(job);
      var picked := ChooseWrapper(bs);
      assert picked == Choose(job);
      if !picked.Fork? {
        return ChooseStopped(picked);
      }
      var chosen := bs[picked.branch];
      tx.Effect(Chosen(picked.branch, chosen.item, chosen.state));
      r := Won(picked.branch);
    }

    /** The probe, then a datom a branch, then a score a branch. */
    method EmitAudit(bs: seq<BranchResult<I, A>>)
      requires bs == Branches(job, |job.items|)
      modifies tx`intents
      ensures tx.intents == old(tx.intents) + Audit(job)
    {
      hide BranchIntents, ScoreIntents, Branches;
      tx.Effect(Probe(job.seed, job.items, |bs|));
      EmitBranches(bs);
      EmitScores(bs);
      assert tx.intents == old(tx.intents) + Audit(job);
    }

    method EmitBranches(bs: seq<BranchResult<I, A>>)
      modifies tx`intents
      ensures tx.intents == old(tx.intents) + BranchIntents(bs)
    {
      for k := 0 to |bs|
        invariant tx.intents == old(tx.intents) + BranchIntents(bs[..k])
      {
        assert bs[..k + 1][..k] == bs[..k];
        tx.Effect(Branch(bs[k].index, bs[k].item, bs[k].state));
      }
      assert bs[..|bs|] == bs;
    }

    method EmitScores(bs: seq<BranchResult<I, A>>)
      modifies tx`intents
      ensures tx.intents == old(tx.intents) + ScoreIntents(bs)
    {
      for k := 0 to |bs|
        invariant tx.intents == old(tx.intents) + ScoreIntents(bs[..k])
      {
        assert bs[..k + 1][..k] == bs[..k];
        tx.Effect(Score(bs[k].index, bs[k].state));
      }
      assert bs[..|bs|] == bs;
    }

    /** `fold_into`. */
    method Run(inDosync: bool) returns (outcome: Folded<A>)
      requires nextIdx == 0 && Dicts() == Captured(map[], map[], map[], [])
      modifies this, tx
      ensures var e := FoldIntoOf(job, inDosync);
              && outcome == e.outcome && tx.intents == old(tx.intents) + e.intents
              && tx.staged == old(tx.staged) + e.staged
    {
      hide FirstFailure, CapturedUpTo, SortedKeys, Choose, Audit, IndexIn, ScoresAt;
      if !inDosync {
        return OutsideDosync;
      }
      if job.checkpointEvery != 0 || job.items == [] {
        return ValueError;
      }
      var forked := DoFork();
      match forked {
        case ReducerStopped(k) =>
          outcome := Reclassify(k);
        case ChooseStopped(picked) =>
          outcome := if picked.AllSkipped? then ValueError else ChooseError(Fault(picked, violations));
        case Won(b) =>
          KeysCaptured(job);
          if facts[b] != [] {
            tx.AddFacts(facts[b]);
          }
          var keys := SortedKeys(scores, |job.items|);
          outcome := FoldIntoResult(IndexIn(keys, b), scores[b], ScoresAt(scores, keys), accs[b],
                                    accs[keys[|keys| - 1]], |facts[b]|);
      }
    }

    /** The handler around the fork when the reducer stopped it at branch `k`. */
    method Reclassify(k: nat) returns (outcome: Folded<A>)
      requires FirstFailure(job, |job.items|) == Some(k) && Dicts() == CapturedUpTo(job, k + 1)
      ensures var t := Tried(job, k);
              outcome == if t.Violates? then ChooseError(ByReducer(t.what)) else ReducerRaised(t.message)
    {
      OnlyViolation(job, k);
      if violations != [] {
        return ChooseError(ByReducer(violations[0]));
      }
      outcome := ReducerRaised(job.fn(job.seed, job.items[k], k).message);
    }
  }

  lemma {:induction false} FailureStays<I, A>(job: Job<I, A>, m: nat, n: nat)
    requires m <= n <= |job.items| && FirstFailure(job, m).Some?
    ensures FirstFailure(job, n) == FirstFailure(job, m)
  {
    if m < n {
      FailureStays(job, m, n - 1);
    }
  }

  /** When a failure stops the fork, no branch before it broke its contract. */
  lemma {:induction false} OnlyViolation<I, A>(job: Job<I, A>, k: nat)
    requires k < |job.items| && !Tried(job, k).Good? && forall j :: 0 <= j < k ==> Tried(job, j).Good?
    ensures CapturedUpTo(job, k + 1).violations == if Tried(job, k).Violates? then [Tried(job, k).what] else []
  {
    NoViolations(job, k);
  }

  lemma {:induction false} NoViolations<I, A>(job: Job<I, A>, k: nat)
    requires k <= |job.items| && forall j :: 0 <= j < k ==> Tried(job, j).Good?
    ensures CapturedUpTo(job, k).violations == []
  {
    if k > 0 {
      NoViolations(job, k - 1);
    }
  }
}
