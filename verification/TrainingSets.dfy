/** The canonical form of a training set before hashing (src/persistence/plan/_execute.py:234-345). */
module TrainingSets {
  import opened Wrappers

  datatype Key = Inputs | Expected | Extra(name: string)

  /** An example as the caller passes it: the keys of its dict, whether `inputs` is a dict, and its
      canonical JSON text, if it has one. None is an example that is no dict. */
  datatype Example = Example(keys: set<Key>, inputsIsDict: bool, text: Option<string>)

  datatype Fault = NotADict | WrongKeys | InputsNotADict | NotEncodable

  datatype Canonical = Payload(text: string) | ValueError(index: nat, fault: Fault)

  const KEYS: set<Key> := {Inputs, Expected}

  /** The checks on one example, in the order made. */
  function FaultOf(e: Option<Example>): Option<Fault> {
    match e
    case None => Some(NotADict)
    case Some(x) =>
      if x.keys != KEYS then Some(WrongKeys)
      else if !x.inputsIsDict then Some(InputsNotADict)
      else if x.text.None? then Some(NotEncodable)
      else None
  }

  /** Lexicographic order of texts, as Python compares strings. */
  predicate Leq(a: string, b: string) {
    a == [] || (b != [] && (a[0] < b[0] || (a[0] == b[0] && Leq(a[1..], b[1..]))))
  }

  predicate Sorted(s: seq<string>) {
    forall i, j :: 0 <= i < j < |s| ==> Leq(s[i], s[j])
  }

  /** One text put in its place. */
  function Insert(s: seq<string>, x: string): seq<string> {
    if s == [] then [x] else if Leq(x, s[0]) then [x] + s else [s[0]] + Insert(s[1..], x)
  }

  function Sort(s: seq<string>): seq<string> {
    if s == [] then [] else Insert(Sort(s[..|s| - 1]), s[|s| - 1])
  }

  function Join(s: seq<string>): string {
    if s == [] then ""
    else if |s| == 1 then s[0]
    else s[0] + "\n" + Join(s[1..])
  }

  function TextOf(e: Option<Example>): string
    requires FaultOf(e).None?
  {
    e.value.text.value
  }

  /** The texts of the first `n` examples. */
  function Texts(examples: seq<Option<Example>>, n: nat): (r: seq<string>)
    requires n <= |examples| && forall i :: 0 <= i < n ==> FaultOf(examples[i]).None?
    ensures |r| == n && forall i :: 0 <= i < n ==> r[i] == TextOf(examples[i])
  {
    if n == 0 then [] else Texts(examples, n - 1) + [TextOf(examples[n - 1])]
  }

  function FirstFault(examples: seq<Option<Example>>): (i: nat)
    ensures i <= |examples| && (i < |examples| ==> FaultOf(examples[i]).Some?)
    ensures forall j :: 0 <= j < i ==> FaultOf(examples[j]).None?
  {
    if examples == [] then 0
    else
      var i := FirstFault(examples[..|examples| - 1]);
      if i < |examples| - 1 || FaultOf(examples[|examples| - 1]).Some? then i else |examples|
  }

  function CanonicalOf(examples: seq<Option<Example>>): Canonical {
    var i := FirstFault(examples);
    if i < |examples| then ValueError(i, FaultOf(examples[i]).value)
    else Payload(Join(Sort(Texts(examples, |examples|))))
  }

  /** `_canonicalize_training_set`, up to the hash. */
  method Canonicalize(examples: seq<Option<Example>>) returns (r: Canonical)
    ensures r == CanonicalOf(examples)
  {
    hide FaultOf, Sort, Join;
    var texts: seq<string> := [];
    for i := 0 to |examples|
      invariant forall j :: 0 <= j < i ==> FaultOf(examples[j]).None?
      invariant texts == Texts(examples, i)
    {
      var fault := FaultOf(examples[i]);
      if fault.Some? {
        return ValueError(i, fault.value);
      }
      texts := texts + [TextOf(examples[i])];
    }
    r := Payload(Join(Sort(texts)));
  }

  // ---- The order -----------------------------------------------------------------------------

  lemma {:induction false} LeqTotal(a: string, b: string)
    ensures Leq(a, b) || Leq(b, a)
    ensures Leq(a, b) && Leq(b, a) ==> a == b
    decreases |a|
  {
    if a != [] && b != [] {
      LeqTotal(a[1..], b[1..]);
      assert a == [a[0]] + a[1..] && b == [b[0]] + b[1..];
    }
  }

  /** The texts agree before position `k` and the first has the lower character there. */
  predicate BelowAt(a: string, b: string, k: nat) {
    k < |a| && k < |b| && a[..k] == b[..k] && a[k] < b[k]
  }

  ghost predicate DiffersBelow(a: string, b: string) {
    exists k: nat :: BelowAt(a, b, k)
  }

  lemma {:induction false} BelowAtTail(a: string, b: string, k: nat)
    requires a != [] && b != []
    ensures BelowAt(a, b, 0) <==> a[0] < b[0]
    ensures BelowAt(a, b, k + 1) <==> a[0] == b[0] && BelowAt(a[1..], b[1..], k)
  {
    if k + 1 < |a| && k + 1 < |b| {
      var s, t := a[..k + 1], b[..k + 1];
      assert s == [a[0]] + a[1..][..k] && t == [b[0]] + b[1..][..k];
      assert a[1..][..k] == s[1..] && b[1..][..k] == t[1..] && s[0] == a[0] && t[0] == b[0];
    }
  }

  lemma {:induction false} DiffersTail(a: string, b: string)
    requires a != [] && b != []
    ensures DiffersBelow(a, b) <==> a[0] < b[0] || (a[0] == b[0] && DiffersBelow(a[1..], b[1..]))
  {
    hide BelowAt;
    if k: nat :| BelowAt(a, b, k) {
      BelowAtTail(a, b, if k > 0 then k - 1 else 0);
    }
    BelowAtTail(a, b, 0);
    if a[0] == b[0] && DiffersBelow(a[1..], b[1..]) {
      var k: nat :| BelowAt(a[1..], b[1..], k);
      BelowAtTail(a, b, k);
    }
  }

  /** One text comes no later than another exactly when it is a prefix of it or has the lower character where they
      first differ. */
  lemma {:induction false} LeqIff(a: string, b: string)
    ensures Leq(a, b) <==> a <= b || DiffersBelow(a, b)
    decreases |a|
  {
    hide DiffersBelow;
    if a == [] || b == [] {
      NothingDiffers(a, b);
    } else {
      assert a == [a[0]] + a[1..] && b == [b[0]] + b[1..];
      LeqIff(a[1..], b[1..]);
      DiffersTail(a, b);
    }
  }

  lemma {:induction false} NothingDiffers(a: string, b: string)
    requires a == [] || b == []
    ensures !DiffersBelow(a, b)
  {}

  lemma {:induction false} LeqTrans(a: string, b: string, c: string)
    requires Leq(a, b) && Leq(b, c)
    ensures Leq(a, c)
    decreases |a|
  {
    if a != [] && a[0] == c[0] {
      LeqTrans(a[1..], b[1..], c[1..]);
    }
  }

  lemma {:induction false} InsertAdds(s: seq<string>, x: string)
    ensures multiset(Insert(s, x)) == multiset(s) + multiset{x}
    decreases |s|
  {
    hide Leq;
    if s != [] {
      assert s == [s[0]] + s[1..];
      if !Leq(x, s[0]) {
        InsertAdds(s[1..], x);
      }
    }
  }

  predicate Below(x: string, s: seq<string>) {
    forall y :: y in multiset(s) ==> Leq(x, y)
  }

  lemma {:induction false} SortedCons(x: string, s: seq<string>)
    ensures Sorted([x] + s) <==> Sorted(s) && Below(x, s)
  {
    hide Leq;
    if Sorted([x] + s) {
      forall i, j | 0 <= i < j < |s| ensures Leq(s[i], s[j]) {
        assert ([x] + s)[i + 1] == s[i] && ([x] + s)[j + 1] == s[j];
      }
      forall y | y in multiset(s) ensures Leq(x, y) {
        var i :| 0 <= i < |s| && s[i] == y;
        assert ([x] + s)[0] == x && ([x] + s)[i + 1] == y;
      }
    }
    if Sorted(s) && Below(x, s) {
      forall i, j | 0 <= i < j < |[x] + s| ensures Leq(([x] + s)[i], ([x] + s)[j]) {
        assert ([x] + s)[j] == s[j - 1] && s[j - 1] in multiset(s);
      }
    }
  }

  lemma {:induction false} InsertSorts(s: seq<string>, x: string)
    requires Sorted(s)
    ensures Sorted(Insert(s, x))
    decreases |s|
  {
    hide Leq, Sorted;
    SortedCons(x, s);
    if s == [] {
      assert [x] + s == [x];
      NothingIsSorted();
    } else {
      LeqTotal(x, s[0]);
      assert s == [s[0]] + s[1..];
      SortedCons(s[0], s[1..]);
      if Leq(x, s[0]) {
        forall y | y in multiset(s) ensures Leq(x, y) {
          if y != s[0] {
            LeqTrans(x, s[0], y);
          }
        }
      } else {
        InsertAdds(s[1..], x);
        InsertSorts(s[1..], x);
        SortedCons(s[0], Insert(s[1..], x));
      }
    }
  }

  lemma {:induction false} SortSorts(s: seq<string>)
    ensures Sorted(Sort(s)) && multiset(Sort(s)) == multiset(s)
    decreases |s|
  {
    hide Sorted, Insert;
    if s == [] {
      NothingIsSorted();
    } else {
      var init, x := s[..|s| - 1], s[|s| - 1];
      SortSorts(init);
      InsertSorts(Sort(init), x);
      InsertAdds(Sort(init), x);
      assert s == init + [x];
    }
  }

  lemma {:induction false} NothingIsSorted()
    ensures Sorted([])
  {}

  lemma {:induction false} HeadAndTail(s: seq<string>)
    requires s != []
    ensures multiset(s) == multiset{s[0]} + multiset(s[1..]) && s[0] in multiset(s)
  {
    assert s == [s[0]] + s[1..];
  }

  /** The head of a sorted list is below every member. */
  lemma {:induction false} HeadIsLeast(s: seq<string>, x: string)
    requires Sorted(s) && x in multiset(s)
    ensures s != [] && Leq(s[0], x)
  {
    hide Leq, Sorted;
    HeadAndTail(s);
    SortedCons(s[0], s[1..]);
    LeqTotal(x, x);
    assert s == [s[0]] + s[1..];
  }

  /** A sorted list is determined by its members. */
  lemma {:induction false} SortedIsUnique(s: seq<string>, t: seq<string>)
    requires Sorted(s) && Sorted(t) && multiset(s) == multiset(t)
    ensures s == t
    decreases |s|
  {
    hide Leq, Sorted;
    if s == [] {
      assert |multiset(t)| == 0;
    } else {
      HeadAndTail(s);
      HeadIsLeast(t, s[0]);
      HeadAndTail(t);
      HeadIsLeast(s, t[0]);
      LeqTotal(s[0], t[0]);
      assert s == [s[0]] + s[1..] && t == [t[0]] + t[1..];
      SortedCons(s[0], s[1..]);
      SortedCons(t[0], t[1..]);
      SameTails(s, t);
      SortedIsUnique(s[1..], t[1..]);
    }
  }

  lemma {:induction false} SameTails(s: seq<string>, t: seq<string>)
    requires s != [] && t != [] && s[0] == t[0] && multiset(s) == multiset(t)
    ensures multiset(s[1..]) == multiset(t[1..])
  {
    HeadAndTail(s);
    HeadAndTail(t);
    assert multiset(s[1..]) == multiset(s) - multiset{s[0]};
    assert multiset(t[1..]) == multiset(t) - multiset{t[0]};
  }

  // ---- The join ---------------------------------------------------------------------------------

  /** JSON text: never empty, and a newline in it is escaped. */
  predicate OneLine(x: string) {
    x != "" && '\n' !in x
  }

  predicate OneLiners(s: seq<string>) {
    forall i :: 0 <= i < |s| ==> OneLine(s[i])
  }

  /** The first line of a joined text ends where it stops or at its first newline. */
  lemma {:induction false} FirstLine(s: seq<string>)
    requires s != [] && OneLiners(s)
    ensures |Join(s)| >= |s[0]| && Join(s)[..|s[0]|] == s[0]
    ensures |s| == 1 ==> Join(s) == s[0]
    ensures |s| > 1 ==> |Join(s)| > |s[0]| && Join(s)[|s[0]|] == '\n' && Join(s)[|s[0]| + 1..] == Join(s[1..])
  {}

  lemma {:induction false} SameFirstLine(s: seq<string>, t: seq<string>)
    requires s != [] && t != [] && OneLiners(s) && OneLiners(t) && Join(s) == Join(t)
    ensures |s[0]| >= |t[0]|
  {
    hide Join;
    FirstLine(s);
    FirstLine(t);
    NoBreakInside(t);
  }

  lemma {:induction false} NoBreakInside(t: seq<string>)
    requires t != [] && OneLiners(t)
    ensures |t[0]| <= |Join(t)| && forall k :: 0 <= k < |t[0]| ==> Join(t)[k] != '\n'
  {
    hide Join;
    FirstLine(t);
    forall k | 0 <= k < |t[0]| ensures Join(t)[k] != '\n' {
      assert Join(t)[k] == Join(t)[..|t[0]|][k] == t[0][k];
    }
  }

  lemma {:induction false} JoinIsInjective(s: seq<string>, t: seq<string>)
    requires OneLiners(s) && OneLiners(t) && Join(s) == Join(t)
    ensures s == t
    decreases |s|
  {
    hide Join;
    if s == [] || t == [] {
      NothingJoined(s);
      NothingJoined(t);
    } else {
      SameFirstLine(s, t);
      SameFirstLine(t, s);
      FirstLine(s);
      FirstLine(t);
      assert s[0] == t[0];
      if |s| > 1 && |t| > 1 {
        JoinIsInjective(s[1..], t[1..]);
      }
      assert s == [s[0]] + s[1..] && t == [t[0]] + t[1..];
    }
  }

  lemma {:induction false} NothingJoined(s: seq<string>)
    requires OneLiners(s)
    ensures Join(s) == "" <==> s == []
  {
    if s != [] {
      FirstLine(s);
      assert OneLine(s[0]);
    }
  }

  lemma {:induction false} SortKeepsOneLiners(s: seq<string>)
    requires OneLiners(s)
    ensures OneLiners(Sort(s))
  {
    SortSorts(s);
    forall i | 0 <= i < |Sort(s)| ensures OneLine(Sort(s)[i]) {
      assert Sort(s)[i] in multiset(Sort(s));
      var j :| 0 <= j < |s| && s[j] == Sort(s)[i];
    }
  }

  /** Two valid training sets have the same payload exactly when they hold the same examples the same
      number of times, in whatever order. */
  lemma {:induction false} SamePayloadIffSameExamples(a: seq<Option<Example>>, b: seq<Option<Example>>)
    requires CanonicalOf(a).Payload? && CanonicalOf(b).Payload?
    requires OneLiners(Texts(a, |a|)) && OneLiners(Texts(b, |b|))
    ensures CanonicalOf(a) == CanonicalOf(b) <==> multiset(Texts(a, |a|)) == multiset(Texts(b, |b|))
  {
    hide Texts, Sort, Join, Sorted, OneLiners, FaultOf;
    var s, t := Texts(a, |a|), Texts(b, |b|);
    SortSorts(s);
    SortSorts(t);
    if multiset(s) == multiset(t) {
      SortedIsUnique(Sort(s), Sort(t));
    }
    if CanonicalOf(a) == CanonicalOf(b) {
      SortKeepsOneLiners(s);
      SortKeepsOneLiners(t);
      JoinIsInjective(Sort(s), Sort(t));
    }
  }

  // ---- What a payload holds ---------------------------------------------------------------------

  /** Joined texts stand one after the other with one newline between. */
  lemma {:induction false} JoinConcat(s: seq<string>, t: seq<string>)
    ensures s != [] && t != [] ==> Join(s + t) == Join(s) + "\n" + Join(t)
    ensures |s| == 1 ==> Join(s) == s[0]
    ensures s == [] ==> Join(s) == ""
    decreases |s|
  {
    if s != [] && t != [] {
      assert (s + t)[1..] == s[1..] + t && (s + t)[0] == s[0];
      JoinConcat(s[1..], t);
      if |s| == 1 {
        assert s[1..] + t == t;
      }
    }
  }

  /** The payload of a valid training set is the texts of its examples, each as often as it occurs, in ascending
      order, joined by newlines. */
  lemma {:induction false} PayloadHolds(examples: seq<Option<Example>>) returns (lines: seq<string>)
    requires CanonicalOf(examples).Payload?
    ensures CanonicalOf(examples) == Payload(Join(lines))
    ensures forall i, j :: 0 <= i < j < |lines| ==> lines[i] <= lines[j] || DiffersBelow(lines[i], lines[j])
    ensures forall i :: 0 <= i < |examples| ==> examples[i].Some? && examples[i].value.text.Some?
    ensures multiset(lines) == multiset(seq(|examples|, i requires 0 <= i < |examples| => TextAt(examples[i])))
  {
    hide Join, Sort, Leq, DiffersBelow;
    var texts := Texts(examples, |examples|);
    SortSorts(texts);
    lines := Sort(texts);
    forall i, j | 0 <= i < j < |lines| ensures lines[i] <= lines[j] || DiffersBelow(lines[i], lines[j]) {
      LeqIff(lines[i], lines[j]);
    }
    forall i | 0 <= i < |examples| ensures examples[i].Some? && examples[i].value.text.Some? {
      assert FaultOf(examples[i]).None?;
    }
    assert texts == seq(|examples|, i requires 0 <= i < |examples| => TextAt(examples[i]));
  }

  /** The canonical text of an example that has one. */
  function TextAt(e: Option<Example>): string {
    if e.Some? && e.value.text.Some? then e.value.text.value else ""
  }

  /** An example passes when it is a dict of exactly the two keys, whose inputs are a dict, and that has a canonical
      text; otherwise the first of these it fails, in this order, is reported. */
  lemma {:induction false} FaultsInOrder(e: Option<Example>)
    ensures e == None <==> FaultOf(e) == Some(NotADict)
    ensures e.Some? ==>
              var x := e.value;
              var keysOk := Inputs in x.keys && Expected in x.keys && forall n :: Extra(n) !in x.keys;
              && (FaultOf(e) == Some(WrongKeys) <==> !keysOk)
              && (FaultOf(e) == Some(InputsNotADict) <==> keysOk && !x.inputsIsDict)
              && (FaultOf(e) == Some(NotEncodable) <==> keysOk && x.inputsIsDict && x.text == None)
  {
    if e.Some? && Inputs in e.value.keys && Expected in e.value.keys && forall n :: Extra(n) !in e.value.keys {
      forall k ensures k in e.value.keys <==> k in KEYS {
        match k
        case Inputs =>
        case Expected =>
        case Extra(n) =>
      }
      assert e.value.keys == KEYS;
    }
  }

  /** A set is refused at its first offending example, and for that example's first fault. */
  lemma {:induction false} RefusedAtTheFirst(examples: seq<Option<Example>>, i: nat, fault: Fault)
    ensures CanonicalOf(examples) == ValueError(i, fault) <==>
            && i < |examples| && FaultOf(examples[i]) == Some(fault)
            && forall j :: 0 <= j < i ==> FaultOf(examples[j]) == None
  {
    hide FaultOf, Sort, Join;
  }
}
