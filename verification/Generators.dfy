/**
  What the test generators send, as a function of the index they read.  A suite generator walks all
  listings of all requested suites and keeps the first listing of each test.
 */
module Generators {
  import opened Common
  import opened ConfigIndex

  datatype JobWithError =
    | JobOk(job: Job)
    | NoTestNamed(name: string)
    | NoSuiteNamed(suite: string)
    | ListedButMissing(test: string, suite: string)

  // ----- tests by name -----

  function ItemByName(ix: Index, name: string): JobWithError {
    if name in ix.tests then JobOk(ix.tests[name]) else NoTestNamed(name)
  }

  function ByName(ix: Index, names: seq<string>): seq<JobWithError> {
    seq(|names|, i requires 0 <= i < |names| => ItemByName(ix, names[i]))
  }

  // ----- tests for suites -----

  /** One thing a suite generator looks at: an unknown suite, or a test listed in a suite. */
  datatype Entry = UnknownSuite(suite: string) | Listing(test: string, suite: string)

  function SuiteEntries(suites: map<string, seq<string>>, s: string): seq<Entry> {
    if s !in suites then [UnknownSuite(s)]
    else seq(|suites[s]|, i requires 0 <= i < |suites[s]| => Listing(suites[s][i], s))
  }

  /** All entries of the requested suites, in order. */
  function Entries(suites: map<string, seq<string>>, names: seq<string>): seq<Entry> {
    if names == [] then []
    else Entries(suites, names[..|names| - 1]) + SuiteEntries(suites, names[|names| - 1])
  }

  /** Whether entry i is kept: an unknown suite always, a test at its first listing only. */
  predicate Kept(es: seq<Entry>, i: nat)
    requires i < |es|
  {
    es[i].Listing? ==> forall j :: 0 <= j < i && es[j].Listing? ==> es[j].test != es[i].test
  }

  function FirstListings(es: seq<Entry>): seq<Entry> {
    if es == [] then []
    else FirstListings(es[..|es| - 1]) + (if Kept(es, |es| - 1) then [es[|es| - 1]] else [])
  }

  function Item(ix: Index, e: Entry): JobWithError {
    match e
    case UnknownSuite(s) => NoSuiteNamed(s)
    case Listing(t, s) => if t in ix.tests then JobOk(ix.tests[t]) else ListedButMissing(t, s)
  }

  function Items(ix: Index, es: seq<Entry>): seq<JobWithError> {
    seq(|es|, i requires 0 <= i < |es| => Item(ix, es[i]))
  }

  function ForSuites(ix: Index, names: seq<string>): seq<JobWithError> {
    Items(ix, FirstListings(Entries(ix.suites, names)))
  }

  // ----- the walk keeps a set of seen tests -----

  function ListedTests(es: seq<Entry>): set<string> {
    set i | 0 <= i < |es| && es[i].Listing? :: es[i].test
  }

  /** The entries of es that a walk keeps after it has already seen some tests. */
  function Unseen(seen: set<string>, es: seq<Entry>): seq<Entry>
    decreases |es|
  {
    if es == [] then []
    else match es[0]
      case UnknownSuite(_) => [es[0]] + Unseen(seen, es[1..])
      case Listing(t, _) =>
        if t in seen then Unseen(seen, es[1..]) else [es[0]] + Unseen(seen + {t}, es[1..])
  }

  lemma ListedTestsConcat(a: seq<Entry>, b: seq<Entry>)
    ensures ListedTests(a + b) == ListedTests(a) + ListedTests(b)
  {
    forall t | t in ListedTests(a) + ListedTests(b) ensures t in ListedTests(a + b) {
      if t in ListedTests(a) {
        var i :| 0 <= i < |a| && a[i].Listing? && a[i].test == t;
        assert (a + b)[i] == a[i];
      } else {
        var i :| 0 <= i < |b| && b[i].Listing? && b[i].test == t;
        assert (a + b)[|a| + i] == b[i];
      }
    }
  }

  /** Appending one entry: it is kept unless its test was seen. */
  lemma FirstListingsSnoc(es: seq<Entry>, e: Entry)
    ensures FirstListings(es + [e])
         == FirstListings(es) + (if e.Listing? && e.test in ListedTests(es) then [] else [e])
    ensures ListedTests(es + [e]) == ListedTests(es) + (if e.Listing? then {e.test} else {})
  {
    var all := es + [e];
    assert all[..|all| - 1] == es && all[|all| - 1] == e;
    ListedTestsConcat(es, [e]);
    assert [e][0] == e;
  }

  /** An entry that a walk keeps, as a list. */
  function Fresh(seen: set<string>, e: Entry): seq<Entry> {
    if e.Listing? && e.test in seen then [] else [e]
  }

  lemma UnseenStep(seen: set<string>, es: seq<Entry>)
    requires es != []
    ensures Unseen(seen, es)
         == Fresh(seen, es[0]) + Unseen(seen + (if es[0].Listing? then {es[0].test} else {}), es[1..])
  {
    if es[0].UnknownSuite? || es[0].test in seen {
      assert seen + (if es[0].Listing? then {es[0].test} else {}) == seen;
    }
  }

  lemma {:induction false} FirstListingsConcat(a: seq<Entry>, b: seq<Entry>)
    ensures FirstListings(a + b) == FirstListings(a) + Unseen(ListedTests(a), b)
    decreases |b|
  {
    if b == [] {
      assert a + b == a;
    } else {
      assert a + b == (a + [b[0]]) + b[1..];
      FirstListingsSnoc(a, b[0]);
      FirstListingsConcat(a + [b[0]], b[1..]);
      UnseenStep(ListedTests(a), b);
      ConcatAssoc(FirstListings(a), Fresh(ListedTests(a), b[0]), Unseen(ListedTests(a + [b[0]]), b[1..]));
    }
  }

  lemma {:induction false} UnseenOfSeen(seen: set<string>, es: seq<Entry>)
    requires forall i :: 0 <= i < |es| ==> es[i].Listing? && es[i].test in seen
    ensures Unseen(seen, es) == []
  {
    if es == [] {
    } else {
      UnseenOfSeen(seen, es[1..]);
    }
  }

  // ----- what is sent, each test at most once -----

  function UnknownCount(es: seq<Entry>): nat {
    if es == [] then 0
    else UnknownCount(es[..|es| - 1]) + (if es[|es| - 1].UnknownSuite? then 1 else 0)
  }

  ghost predicate TestsOnce(es: seq<Entry>) {
    forall i, j :: 0 <= i < j < |es| && es[i].Listing? && es[j].Listing? ==> es[i].test != es[j].test
  }

  lemma {:induction false} FirstListingsTests(es: seq<Entry>)
    ensures ListedTests(FirstListings(es)) == ListedTests(es)
  {
    if es == [] {
    } else {
      var init, e := es[..|es| - 1], es[|es| - 1];
      assert es == init + [e];
      FirstListingsTests(init);
      FirstListingsSnoc(init, e);
      FirstListingsSnoc(FirstListings(init), e);
      if e.Listing? && e.test in ListedTests(init) {
        assert ListedTests(es) == ListedTests(init) && FirstListings(es) == FirstListings(init);
      }
    }
  }

  /** No test is sent twice. */
  lemma {:induction false} FirstListingsOnce(es: seq<Entry>)
    ensures TestsOnce(FirstListings(es))
  {
    if es == [] {
    } else {
      var init, e := es[..|es| - 1], es[|es| - 1];
      assert es == init + [e];
      FirstListingsOnce(init);
      FirstListingsSnoc(init, e);
      FirstListingsTests(init);
      var kept := FirstListings(init);
      assert forall i :: 0 <= i < |kept| && kept[i].Listing? ==> kept[i].test in ListedTests(kept);
    }
  }

  /** One item per distinct listed test and one per occurrence of an unknown suite. */
  lemma {:induction false} FirstListingsCount(es: seq<Entry>)
    ensures |FirstListings(es)| == |ListedTests(es)| + UnknownCount(es)
  {
    if es == [] {
    } else {
      var init, e := es[..|es| - 1], es[|es| - 1];
      assert es == init + [e];
      FirstListingsCount(init);
      FirstListingsSnoc(init, e);
      if e.Listing? && e.test in ListedTests(init) {
        assert ListedTests(es) == ListedTests(init);
      }
    }
  }

  // ----- the walk, entry by entry -----

  /** Test j of suite i of the requested names is where a walk can stand. */
  ghost predicate AtCursor(ix: Index, names: seq<string>, i: nat, j: nat) {
    && i <= |names|
    && j <= if i < |names| && names[i] in ix.suites then |ix.suites[names[i]]| else 0
  }

  /** The entries in front of the cursor. */
  ghost function Before(ix: Index, names: seq<string>, i: nat, j: nat): seq<Entry>
    requires AtCursor(ix, names, i, j)
  {
    Entries(ix.suites, names[..i]) + (if j == 0 then [] else SuiteEntries(ix.suites, names[i])[..j])
  }

  /** A walk that stands at the cursor has seen these tests and sent these items. */
  ghost predicate Walked(ix: Index, names: seq<string>, i: nat, j: nat, seen: set<string>, sent: seq<JobWithError>) {
    && AtCursor(ix, names, i, j)
    && seen == ListedTests(Before(ix, names, i, j))
    && sent == Items(ix, FirstListings(Before(ix, names, i, j)))
  }

  lemma WalkStart(ix: Index, names: seq<string>)
    ensures Walked(ix, names, 0, 0, {}, [])
  {
    assert Before(ix, names, 0, 0) == [];
  }

  lemma ItemsSnoc(ix: Index, es: seq<Entry>, e: Entry)
    ensures Items(ix, es + [e]) == Items(ix, es) + [Item(ix, e)]
  {
  }

  lemma BeforeNextSuite(ix: Index, names: seq<string>, i: nat)
    requires i < |names|
    ensures Before(ix, names, i + 1, 0) == Entries(ix.suites, names[..i]) + SuiteEntries(ix.suites, names[i])
  {
    var init := names[..i + 1];
    assert init[..i] == names[..i];
    assert Before(ix, names, i + 1, 0) == Entries(ix.suites, init) + [];
  }

  lemma WalkUnknownSuite(ix: Index, names: seq<string>, i: nat, seen: set<string>, sent: seq<JobWithError>)
    requires i < |names| && names[i] !in ix.suites && Walked(ix, names, i, 0, seen, sent)
    ensures Walked(ix, names, i + 1, 0, seen, sent + [NoSuiteNamed(names[i])])
  {
    var es, e := Before(ix, names, i, 0), UnknownSuite(names[i]);
    BeforeNextSuite(ix, names, i);
    assert Before(ix, names, i + 1, 0) == es + [e];
    FirstListingsSnoc(es, e);
    ItemsSnoc(ix, FirstListings(es), e);
  }

  lemma WalkListing(ix: Index, names: seq<string>, i: nat, j: nat, seen: set<string>, sent: seq<JobWithError>)
    requires Walked(ix, names, i, j, seen, sent)
    requires i < |names| && names[i] in ix.suites && j < |ix.suites[names[i]]|
    ensures var t := ix.suites[names[i]][j];
            if t in seen then Walked(ix, names, i, j + 1, seen, sent)
            else Walked(ix, names, i, j + 1, seen + {t}, sent + [Item(ix, Listing(t, names[i]))])
  {
    var es, e := Before(ix, names, i, j), Listing(ix.suites[names[i]][j], names[i]);
    assert Before(ix, names, i, j + 1) == es + [e];
    FirstListingsSnoc(es, e);
    ItemsSnoc(ix, FirstListings(es), e);
    if e.test in seen {
      assert FirstListings(es + [e]) == FirstListings(es) && seen + {e.test} == seen;
    }
  }

  lemma WalkSuiteDone(ix: Index, names: seq<string>, i: nat, seen: set<string>, sent: seq<JobWithError>)
    requires i < |names| && names[i] in ix.suites && Walked(ix, names, i, |ix.suites[names[i]]|, seen, sent)
    ensures Walked(ix, names, i + 1, 0, seen, sent)
  {
    var listed := |ix.suites[names[i]]|;
    BeforeNextSuite(ix, names, i);
    assert SuiteEntries(ix.suites, names[i])[..listed] == SuiteEntries(ix.suites, names[i]);
    assert Before(ix, names, i + 1, 0) == Before(ix, names, i, listed);
  }

  /** A finished walk has sent the first listings of all entries. */
  lemma WalkEnd(ix: Index, names: seq<string>, seen: set<string>, sent: seq<JobWithError>)
    requires Walked(ix, names, |names|, 0, seen, sent)
    ensures sent == ForSuites(ix, names)
  {
    assert names[..|names|] == names;
    var es := Entries(ix.suites, names);
    assert Before(ix, names, |names|, 0) == es + [];
    assert es + [] == es;
  }

  // ----- the same walk by positions: where each item comes from -----

  /** Suite i of the requested ones, and place j in its list; an unknown suite has place 0 only. */
  datatype Spot = Spot(i: nat, j: nat)

  predicate Earlier(a: Spot, b: Spot) {
    a.i < b.i || (a.i == b.i && a.j < b.j)
  }

  predicate Unknown(ix: Index, names: seq<string>, p: Spot) {
    p.i < |names| && names[p.i] !in ix.suites && p.j == 0
  }

  predicate Listed(ix: Index, names: seq<string>, p: Spot) {
    p.i < |names| && names[p.i] in ix.suites && p.j < |ix.suites[names[p.i]]|
  }

  function TestAt(ix: Index, names: seq<string>, p: Spot): string
    requires Listed(ix, names, p)
  {
    ix.suites[names[p.i]][p.j]
  }

  /** No earlier place lists the same test. */
  ghost predicate FirstAt(ix: Index, names: seq<string>, p: Spot) {
    && Listed(ix, names, p)
    && forall q :: Listed(ix, names, q) && Earlier(q, p) ==> TestAt(ix, names, q) != TestAt(ix, names, p)
  }

  /** The item is what a place of the walk sends. */
  ghost predicate SentFor(ix: Index, names: seq<string>, p: Spot, item: JobWithError) {
    if Unknown(ix, names, p) then item == NoSuiteNamed(names[p.i])
    else
      && FirstAt(ix, names, p)
      && var t := TestAt(ix, names, p);
         item == if t in ix.tests then JobOk(ix.tests[t]) else ListedButMissing(t, names[p.i])
  }

  /** at says where the items sent in front of the cursor come from; no place is passed over. */
  ghost predicate Traced(ix: Index, names: seq<string>, cursor: Spot, seen: set<string>, sent: seq<JobWithError>,
                         at: seq<Spot>)
  {
    && |at| == |sent|
    && (forall k :: 0 <= k < |at| ==> Earlier(at[k], cursor) && SentFor(ix, names, at[k], sent[k]))
    && (forall k, l :: 0 <= k < l < |at| ==> Earlier(at[k], at[l]))
    && (forall p :: Earlier(p, cursor) && (Unknown(ix, names, p) || FirstAt(ix, names, p)) ==> p in at)
    && (forall p :: Earlier(p, cursor) && Listed(ix, names, p) ==> TestAt(ix, names, p) in seen)
    && (forall t :: t in seen ==> exists p :: Earlier(p, cursor) && Listed(ix, names, p) && TestAt(ix, names, p) == t)
  }

  /** One place further: something is sent from it exactly if it is an unknown suite or a first listing. */
  lemma TraceSends(ix: Index, names: seq<string>, p: Spot, next: Spot, seen: set<string>, sent: seq<JobWithError>,
                   at: seq<Spot>, item: JobWithError)
    requires Traced(ix, names, p, seen, sent, at)
    requires forall q :: Earlier(q, next) <==> Earlier(q, p) || q == p || (q.i == p.i && q.j > p.j && next.j == 0)
    requires Unknown(ix, names, p) || (Listed(ix, names, p) && TestAt(ix, names, p) !in seen && next.j > 0)
    requires Unknown(ix, names, p) ==> item == NoSuiteNamed(names[p.i])
    requires Listed(ix, names, p) ==>
      var t := TestAt(ix, names, p);
      item == if t in ix.tests then JobOk(ix.tests[t]) else ListedButMissing(t, names[p.i])
    ensures Traced(ix, names, next, seen + (if Listed(ix, names, p) then {TestAt(ix, names, p)} else {}),
                   sent + [item], at + [p])
  {
    var seen', at' := seen + (if Listed(ix, names, p) then {TestAt(ix, names, p)} else {}), at + [p];
    assert SentFor(ix, names, p, item);
    assert at'[|at|] == p;
    forall q | Earlier(q, next) && (Unknown(ix, names, q) || FirstAt(ix, names, q)) ensures q in at' {
      if q != p {
        assert Earlier(q, p) && q in at;
      }
    }
    forall t | t in seen' ensures exists q :: Earlier(q, next) && Listed(ix, names, q) && TestAt(ix, names, q) == t {
      if t in seen {
        var q :| Earlier(q, p) && Listed(ix, names, q) && TestAt(ix, names, q) == t;
        assert Earlier(q, next);
      } else {
        assert Earlier(p, next) && Listed(ix, names, p) && TestAt(ix, names, p) == t;
      }
    }
  }

  lemma TraceSkips(ix: Index, names: seq<string>, p: Spot, seen: set<string>, sent: seq<JobWithError>, at: seq<Spot>)
    requires Traced(ix, names, p, seen, sent, at)
    requires Listed(ix, names, p) && TestAt(ix, names, p) in seen
    ensures Traced(ix, names, Spot(p.i, p.j + 1), seen, sent, at)
  {
    var next := Spot(p.i, p.j + 1);
    var first :| Earlier(first, p) && Listed(ix, names, first) && TestAt(ix, names, first) == TestAt(ix, names, p);
    assert !FirstAt(ix, names, p);
    forall q | Earlier(q, next) && (Unknown(ix, names, q) || FirstAt(ix, names, q)) ensures q in at {
      assert q == p || Earlier(q, p);
    }
    forall t | t in seen ensures exists q :: Earlier(q, next) && Listed(ix, names, q) && TestAt(ix, names, q) == t {
      var q :| Earlier(q, p) && Listed(ix, names, q) && TestAt(ix, names, q) == t;
      assert Earlier(q, next);
    }
  }

  lemma TraceSuiteDone(ix: Index, names: seq<string>, i: nat, seen: set<string>, sent: seq<JobWithError>,
                       at: seq<Spot>)
    requires i < |names| && names[i] in ix.suites
    requires Traced(ix, names, Spot(i, |ix.suites[names[i]]|), seen, sent, at)
    ensures Traced(ix, names, Spot(i + 1, 0), seen, sent, at)
  {
    var was, next := Spot(i, |ix.suites[names[i]]|), Spot(i + 1, 0);
    forall q | Earlier(q, next) && (Unknown(ix, names, q) || Listed(ix, names, q)) ensures Earlier(q, was) {
    }
    forall t | t in seen ensures exists q :: Earlier(q, next) && Listed(ix, names, q) && TestAt(ix, names, q) == t {
      var q :| Earlier(q, was) && Listed(ix, names, q) && TestAt(ix, names, q) == t;
      assert Earlier(q, next);
    }
  }

  /**
    Where the items of a suite generator come from, in order: each from a requested suite that does not
    exist, or from the first place that lists a test; and every such place sends its item.
   */
  lemma ForSuitesTraced(ix: Index, names: seq<string>) returns (at: seq<Spot>)
    ensures |at| == |ForSuites(ix, names)|
    ensures forall k :: 0 <= k < |at| ==> SentFor(ix, names, at[k], ForSuites(ix, names)[k])
    ensures forall k, l :: 0 <= k < l < |at| ==> Earlier(at[k], at[l])
    ensures forall p :: Unknown(ix, names, p) || FirstAt(ix, names, p) ==> p in at
  {
    var seen: set<string>, sent := {}, [];
    at := [];
    WalkStart(ix, names);
    TraceStart(ix, names);
    for i := 0 to |names|
      invariant Walked(ix, names, i, 0, seen, sent) && Traced(ix, names, Spot(i, 0), seen, sent, at)
    {
      seen, sent, at := SuiteTraced(ix, names, i, seen, sent, at);
    }
    WalkEnd(ix, names, seen, sent);
    TraceEnd(ix, names, seen, sent, at);
  }

  lemma TraceEnd(ix: Index, names: seq<string>, seen: set<string>, sent: seq<JobWithError>, at: seq<Spot>)
    requires Traced(ix, names, Spot(|names|, 0), seen, sent, at)
    ensures |at| == |sent| && forall k :: 0 <= k < |at| ==> SentFor(ix, names, at[k], sent[k])
    ensures forall k, l :: 0 <= k < l < |at| ==> Earlier(at[k], at[l])
    ensures forall p :: Unknown(ix, names, p) || FirstAt(ix, names, p) ==> p in at
  {
    forall p | Unknown(ix, names, p) || FirstAt(ix, names, p) ensures p in at {
      assert Earlier(p, Spot(|names|, 0));
    }
  }

  lemma TraceStart(ix: Index, names: seq<string>)
    ensures Traced(ix, names, Spot(0, 0), {}, [], [])
  {
  }

  /** One place of a list. */
  lemma PlaceTraced(ix: Index, names: seq<string>, i: nat, j: nat, seen0: set<string>, sent0: seq<JobWithError>,
                    at0: seq<Spot>)
    returns (seen: set<string>, sent: seq<JobWithError>, at: seq<Spot>)
    requires Listed(ix, names, Spot(i, j))
    requires Walked(ix, names, i, j, seen0, sent0) && Traced(ix, names, Spot(i, j), seen0, sent0, at0)
    ensures Walked(ix, names, i, j + 1, seen, sent) && Traced(ix, names, Spot(i, j + 1), seen, sent, at)
  {
    var t := ix.suites[names[i]][j];
    seen, sent, at := seen0, sent0, at0;
    WalkListing(ix, names, i, j, seen, sent);
    if t in seen {
      TraceSkips(ix, names, Spot(i, j), seen, sent, at);
    } else {
      var item := Item(ix, Listing(t, names[i]));
      TraceSends(ix, names, Spot(i, j), Spot(i, j + 1), seen, sent, at, item);
      seen, sent, at := seen + {t}, sent + [item], at + [Spot(i, j)];
    }
  }

  lemma UnknownTraced(ix: Index, names: seq<string>, i: nat, seen: set<string>, sent: seq<JobWithError>, at: seq<Spot>)
    requires i < |names| && names[i] !in ix.suites
    requires Walked(ix, names, i, 0, seen, sent) && Traced(ix, names, Spot(i, 0), seen, sent, at)
    ensures Walked(ix, names, i + 1, 0, seen, sent + [NoSuiteNamed(names[i])])
    ensures Traced(ix, names, Spot(i + 1, 0), seen, sent + [NoSuiteNamed(names[i])], at + [Spot(i, 0)])
  {
    WalkUnknownSuite(ix, names, i, seen, sent);
    TraceSends(ix, names, Spot(i, 0), Spot(i + 1, 0), seen, sent, at, NoSuiteNamed(names[i]));
    assert seen + {} == seen;
  }

  lemma SuiteTraced(ix: Index, names: seq<string>, i: nat, seen0: set<string>, sent0: seq<JobWithError>, at0: seq<Spot>)
    returns (seen: set<string>, sent: seq<JobWithError>, at: seq<Spot>)
    requires i < |names| && Walked(ix, names, i, 0, seen0, sent0) && Traced(ix, names, Spot(i, 0), seen0, sent0, at0)
    ensures Walked(ix, names, i + 1, 0, seen, sent) && Traced(ix, names, Spot(i + 1, 0), seen, sent, at)
  {
    seen, sent, at := seen0, sent0, at0;
    if names[i] !in ix.suites {
      UnknownTraced(ix, names, i, seen, sent, at);
      sent, at := sent + [NoSuiteNamed(names[i])], at + [Spot(i, 0)];
    } else {
      for j := 0 to |ix.suites[names[i]]|
        invariant Walked(ix, names, i, j, seen, sent) && Traced(ix, names, Spot(i, j), seen, sent, at)
      {
        seen, sent, at := PlaceTraced(ix, names, i, j, seen, sent, at);
      }
      WalkSuiteDone(ix, names, i, seen, sent);
      TraceSuiteDone(ix, names, i, seen, sent, at);
    }
  }
}
