/** When a run succeeds, in terms of the configuration and of what the user selected. */
module Selection {
  import opened Common
  import opened Greenbay
  import opened ConfigIndex
  import opened Generators
  import opened ConfigProperties
  import opened App
  import opened Options
  import ConfigStream

  // ----- every indexed job carries its own name -----

  ghost predicate WellKeyed(ix: Index) {
    forall n :: n in ix.tests ==> ix.tests[n].id == n
  }

  /** Loading keeps it so; the empty index is so. */
  lemma {:induction false} ReplayWellKeyed(reg: Registry, ix: Index, loads: seq<Load>)
    requires WellKeyed(ix)
    ensures WellKeyed(Replay(reg, ix, loads))
  {
    ReplayIsOneParse(reg, ix, loads);
  }

  // ----- what the suites' entries are -----

  lemma {:induction false} EntriesMembers(suites: map<string, seq<string>>, names: seq<string>, e: Entry)
    ensures e in Entries(suites, names) <==>
      match e
      case UnknownSuite(s) => s in names && s !in suites
      case Listing(t, s) => s in names && s in suites && t in suites[s]
  {
    if names == [] {
    } else {
      var init, last := names[..|names| - 1], names[|names| - 1];
      assert names == init + [last];
      EntriesMembers(suites, init, e);
      SuiteEntriesMembers(suites, last, e);
    }
  }

  lemma SuiteEntriesMembers(suites: map<string, seq<string>>, s: string, e: Entry)
    ensures e in SuiteEntries(suites, s) <==>
      match e
      case UnknownSuite(x) => x == s && s !in suites
      case Listing(t, x) => x == s && s in suites && t in suites[s]
  {
    var es := SuiteEntries(suites, s);
    if s in suites && e.Listing? && e.suite == s && e.test in suites[s] {
      var i :| 0 <= i < |suites[s]| && suites[s][i] == e.test;
      assert es[i] == e;
    }
  }

  lemma {:induction false} KeptMembers(es: seq<Entry>)
    ensures forall e :: e in FirstListings(es) ==> e in es
    ensures forall e :: e in es && e.UnknownSuite? ==> e in FirstListings(es)
  {
    if es == [] {
    } else {
      KeptMembers(es[..|es| - 1]);
      assert es == es[..|es| - 1] + [es[|es| - 1]];
    }
  }

  // ----- when the queue accepts everything -----

  lemma AcceptedConcat(a: seq<JobWithError>, b: seq<JobWithError>)
    ensures Accepted(a + b) <==> Accepted(a) && Accepted(b) && IdsOf(a) !! IdsOf(b)
    ensures IdsOf(a + b) == IdsOf(a) + IdsOf(b)
  {
    var all := a + b;
    assert forall i :: 0 <= i < |a| ==> all[i] == a[i];
    assert forall i :: 0 <= i < |b| ==> all[|a| + i] == b[i];
    if Accepted(a) && Accepted(b) && IdsOf(a) !! IdsOf(b) {
      forall i, j | 0 <= i < |a| <= j < |all|
        ensures all[i].JobOk? && all[j].JobOk? ==> all[i].job.id != all[j].job.id
      {
        assert a[i].job.id in IdsOf(a) && b[j - |a|].job.id in IdsOf(b);
      }
    }
  }

  lemma ByNameAccepted(ix: Index, names: seq<string>)
    requires WellKeyed(ix)
    ensures Accepted(ByName(ix, names)) <==> Distinct(names) && forall t :: t in names ==> t in ix.tests
    ensures Accepted(ByName(ix, names)) ==> IdsOf(ByName(ix, names)) == set t | t in names
  {
    var items := ByName(ix, names);
    if Accepted(items) {
      assert forall i :: 0 <= i < |names| ==> items[i].JobOk? && items[i].job.id == names[i];
    }
  }

  /** Every requested suite exists and every test it lists has a job. */
  ghost predicate SuitesResolve(ix: Index, names: seq<string>) {
    forall s :: s in names ==> s in ix.suites && forall t :: t in ix.suites[s] ==> t in ix.tests
  }

  ghost predicate AllJobs(items: seq<JobWithError>) {
    forall i :: 0 <= i < |items| ==> items[i].JobOk?
  }

  lemma ResolvingSuitesGiveJobs(ix: Index, names: seq<string>)
    requires SuitesResolve(ix, names)
    ensures AllJobs(ForSuites(ix, names))
  {
    var es := Entries(ix.suites, names);
    var kept, items := FirstListings(es), ForSuites(ix, names);
    KeptMembers(es);
    forall i | 0 <= i < |items| ensures items[i].JobOk? {
      assert kept[i] in kept;
      EntriesMembers(ix.suites, names, kept[i]);
    }
  }

  lemma JobsMeanResolvingSuites(ix: Index, names: seq<string>)
    requires AllJobs(ForSuites(ix, names))
    ensures SuitesResolve(ix, names)
  {
    var es := Entries(ix.suites, names);
    var kept, items := FirstListings(es), ForSuites(ix, names);
    KeptMembers(es);
    FirstListingsTests(es);
    forall i | 0 <= i < |kept| ensures kept[i].Listing? && kept[i].test in ix.tests {
      assert items[i].JobOk?;
    }
    forall s | s in names ensures s in ix.suites {
      EntriesMembers(ix.suites, names, UnknownSuite(s));
    }
    forall s, t | s in names && t in ix.suites[s] ensures t in ix.tests {
      EntriesMembers(ix.suites, names, Listing(t, s));
      assert t in ListedTests(es) && t in ListedTests(kept);
    }
  }

  lemma ForSuitesAccepted(ix: Index, names: seq<string>)
    requires WellKeyed(ix)
    ensures Accepted(ForSuites(ix, names)) <==> SuitesResolve(ix, names)
    ensures Accepted(ForSuites(ix, names)) ==>
      forall t :: t in IdsOf(ForSuites(ix, names)) <==> exists s :: s in names && s in ix.suites && t in ix.suites[s]
  {
    var es := Entries(ix.suites, names);
    var kept, items := FirstListings(es), ForSuites(ix, names);
    if AllJobs(items) {
      JobsMeanResolvingSuites(ix, names);
    }
    FirstListingsOnce(es);
    FirstListingsTests(es);
    if SuitesResolve(ix, names) {
      ResolvingSuitesGiveJobs(ix, names);
      forall i | 0 <= i < |items|
        ensures items[i].JobOk? && kept[i].Listing? && items[i].job.id == kept[i].test
      {
        assert items[i].JobOk?;
      }
      assert IdsOf(items) == ListedTests(kept);
      forall t ensures t in ListedTests(es) <==> exists s :: s in names && s in ix.suites && t in ix.suites[s] {
        ListedIn(ix.suites, names, t);
      }
    }
  }

  lemma ListedIn(suites: map<string, seq<string>>, names: seq<string>, t: string)
    ensures t in ListedTests(Entries(suites, names)) <==> exists s :: s in names && s in suites && t in suites[s]
  {
    var es := Entries(suites, names);
    if t in ListedTests(es) {
      var i :| 0 <= i < |es| && es[i].Listing? && es[i].test == t;
      EntriesMembers(suites, names, es[i]);
      assert es[i] in es;
    }
    if s :| s in names && s in suites && t in suites[s] {
      EntriesMembers(suites, names, Listing(t, s));
    }
  }

  // ----- the condition on the selection -----

  /** Every name selects a job, and no job is selected twice: not by a repeated name, and not by a name
      next to a suite that lists it. */
  ghost predicate Selectable(first: Index, second: Index, tests: seq<string>, suites: seq<string>) {
    && Distinct(tests)
    && (forall t :: t in tests ==> t in first.tests)
    && SuitesResolve(second, suites)
    && forall s :: s in suites ==> forall t :: t in second.suites[s] ==> t !in tests
  }

  ghost predicate SelectedPass(first: Index, second: Index, tests: seq<string>, suites: seq<string>,
                               execute: Job -> CheckOutput)
    requires Selectable(first, second, tests, suites)
  {
    && (forall t :: t in tests ==> execute(first.tests[t]).passed)
    && forall s :: s in suites ==> forall t :: t in second.suites[s] ==> execute(second.tests[t]).passed
  }

  lemma AcceptedIffSelectable(first: Index, second: Index, tests: seq<string>, suites: seq<string>)
    requires WellKeyed(first) && WellKeyed(second)
    ensures Accepted(ByName(first, tests) + ForSuites(second, suites)) <==> Selectable(first, second, tests, suites)
  {
    AcceptedConcat(ByName(first, tests), ForSuites(second, suites));
    ByNameAccepted(first, tests);
    ForSuitesAccepted(second, suites);
    if Accepted(ByName(first, tests)) && Accepted(ForSuites(second, suites)) {
      var named, listed := IdsOf(ByName(first, tests)), IdsOf(ForSuites(second, suites));
      if Selectable(first, second, tests, suites) {
        assert named !! listed;
      }
      if named !! listed {
        forall s, t | s in suites && t in second.suites[s] ensures t !in tests {
          assert t in listed;
        }
      }
    }
  }

  lemma RunsConcat(a: seq<JobWithError>, b: seq<JobWithError>, execute: Job -> CheckOutput)
    ensures Runs(a + b, execute) <==> Runs(a, execute) && Runs(b, execute)
  {
    assert forall i :: 0 <= i < |a| ==> (a + b)[i] == a[i];
    assert forall i :: 0 <= i < |b| ==> (a + b)[|a| + i] == b[i];
  }

  lemma ByNameRuns(ix: Index, names: seq<string>, execute: Job -> CheckOutput)
    requires forall t :: t in names ==> t in ix.tests
    ensures Runs(ByName(ix, names), execute) <==> forall t :: t in names ==> execute(ix.tests[t]).passed
  {
    var items := ByName(ix, names);
    assert forall i :: 0 <= i < |names| ==> names[i] in names && items[i] == JobOk(ix.tests[names[i]]);
  }

  lemma ForSuitesRuns(ix: Index, names: seq<string>, execute: Job -> CheckOutput)
    requires SuitesResolve(ix, names)
    ensures Runs(ForSuites(ix, names), execute) <==>
      forall s :: s in names ==> forall t :: t in ix.suites[s] ==> execute(ix.tests[t]).passed
  {
    var es := Entries(ix.suites, names);
    var kept, items := FirstListings(es), ForSuites(ix, names);
    KeptMembers(es);
    FirstListingsTests(es);
    if Runs(items, execute) {
      forall s, t | s in names && t in ix.suites[s] ensures execute(ix.tests[t]).passed {
        EntriesMembers(ix.suites, names, Listing(t, s));
        assert t in ListedTests(es) && t in ListedTests(kept);
        var i :| 0 <= i < |kept| && kept[i].Listing? && kept[i].test == t;
        assert items[i] == JobOk(ix.tests[t]);
      }
    }
    if forall s :: s in names ==> forall t :: t in ix.suites[s] ==> execute(ix.tests[t]).passed {
      forall i | 0 <= i < |items| && items[i].JobOk? ensures execute(items[i].job).passed {
        assert kept[i] in kept;
        EntriesMembers(ix.suites, names, kept[i]);
      }
    }
  }

  /**
    The items that the stream delivers make a run succeed exactly when every selected name resolves,
    nothing is selected twice, and every selected job passes, in whatever order the workers finish.
   */
  lemma RunSucceedsIff(first: Index, second: Index, tests: seq<string>, suites: seq<string>,
                       execute: Job -> CheckOutput)
    requires WellKeyed(first) && WellKeyed(second)
    ensures var items := ByName(first, tests) + ForSuites(second, suites);
            Accepted(items) && Runs(items, execute) <==>
            Selectable(first, second, tests, suites) && SelectedPass(first, second, tests, suites, execute)
  {
    AcceptedIffSelectable(first, second, tests, suites);
    RunsConcat(ByName(first, tests), ForSuites(second, suites), execute);
    if Selectable(first, second, tests, suites) {
      ByNameRuns(first, tests, execute);
      ForSuitesRuns(second, suites, execute);
    }
  }

  /** A test that is asked for by name and also listed in a requested suite makes every run fail. */
  lemma SelectedTwiceFails(first: Index, second: Index, tests: seq<string>, suites: seq<string>, t: string, s: string)
    requires WellKeyed(first) && WellKeyed(second)
    requires t in tests && s in suites && s in second.suites && t in second.suites[s]
    ensures !Accepted(ByName(first, tests) + ForSuites(second, suites))
  {
    AcceptedIffSelectable(first, second, tests, suites);
  }

  /**
    End to end: whatever the interleaving with reloads, pending ones included, the items that a stream has
    delivered when it closes make a run succeed exactly when the selection is accepted and passes on the
    two complete indexes that the producers found.
   */
  lemma StreamedRunSucceedsIff(c: ConfigStream.Setting, actions: seq<ConfigStream.Action>, t: ConfigStream.State,
                               execute: Job -> CheckOutput)
    requires WellKeyed(c.start)
    requires ConfigStream.Runs(c, ConfigStream.Init(c), actions, t) && t.chanOut > 0
    ensures t.foundFirst <= t.foundSecond <= |t.committed|
    ensures var first := ConfigStream.FoundIndex(c, t.committed, t.foundFirst);
            var second := ConfigStream.FoundIndex(c, t.committed, t.foundSecond);
            Accepted(t.received) && Runs(t.received, execute) <==>
            Selectable(first, second, c.tests, c.suites) && SelectedPass(first, second, c.tests, c.suites, execute)
  {
    ConfigStream.Linearised(c, actions, t);
    var first := ConfigStream.FoundIndex(c, t.committed, t.foundFirst);
    var second := ConfigStream.FoundIndex(c, t.committed, t.foundSecond);
    ReplayWellKeyed(c.reg, c.start, t.committed[..t.foundFirst]);
    ReplayWellKeyed(c.reg, c.start, t.committed[..t.foundSecond]);
    RunSucceedsIff(first, second, c.tests, c.suites, execute);
  }

  /** GreenbayApp.Run on what the generators send from two indexes. */
  method RunSelected(first: Index, second: Index, tests: seq<string>, suites: seq<string>, output: Options,
                     workers: int, execute: Job -> CheckOutput, io: IO, rt: Runtime)
    returns (ok: bool)
    requires WellKeyed(first) && WellKeyed(second)
    ensures ok <==>
      && Selectable(first, second, tests, suites) && SelectedPass(first, second, tests, suites, execute)
      && OutputWorks(output, io)
  {
    ok := Run(ByName(first, tests) + ForSuites(second, suites), output, workers, execute, io, rt);
    RunSucceedsIff(first, second, tests, suites, execute);
  }

  /** GreenbayApp.Run on what a stream has delivered when it closes, whatever reloads there were. */
  method RunStreamed(c: ConfigStream.Setting, ghost actions: seq<ConfigStream.Action>, t: ConfigStream.State,
                     output: Options, workers: int, execute: Job -> CheckOutput, io: IO, rt: Runtime)
    returns (ok: bool)
    requires WellKeyed(c.start)
    requires ConfigStream.Runs(c, ConfigStream.Init(c), actions, t) && t.chanOut > 0
    ensures t.foundFirst <= t.foundSecond <= |t.committed|
    ensures var first := ConfigStream.FoundIndex(c, t.committed, t.foundFirst);
            var second := ConfigStream.FoundIndex(c, t.committed, t.foundSecond);
            ok <==>
              && Selectable(first, second, c.tests, c.suites) && SelectedPass(first, second, c.tests, c.suites, execute)
              && OutputWorks(output, io)
  {
    StreamedRunSucceedsIff(c, actions, t, execute);
    ok := Run(t.received, output, workers, execute, io, rt);
  }
}
