/** What the index promises over whole histories of loads and reloads. */
module ConfigProperties {
  import opened Config
  import opened ConfigIndex
  import opened Generators

  // ----- the generators agree with a scan over the raw tests -----

  function ScanSuiteEntries(raws: seq<RawTest>, s: string): seq<Entry> {
    var listed := ScanSuite(raws, s);
    if listed == [] then [UnknownSuite(s)]
    else seq(|listed|, i requires 0 <= i < |listed| => Listing(listed[i], s))
  }

  /** All listings of the requested suites, read off the raw tests. */
  function ScanEntries(raws: seq<RawTest>, names: seq<string>): seq<Entry> {
    if names == [] then []
    else ScanEntries(raws, names[..|names| - 1]) + ScanSuiteEntries(raws, names[|names| - 1])
  }

  lemma SuiteEntriesEqualScan(raws: seq<RawTest>, s: string)
    ensures SuiteEntries(SuitesAfter(map[], raws), s) == ScanSuiteEntries(raws, s)
  {
    ScanSuiteMembers(raws, s);
    var suites := SuitesAfter(map[], raws);
    if s in suites {
      assert suites[s] == [] + ScanSuite(raws, s) == ScanSuite(raws, s);
    }
  }

  lemma {:induction false} EntriesEqualScan(raws: seq<RawTest>, names: seq<string>)
    ensures Entries(SuitesAfter(map[], raws), names) == ScanEntries(raws, names)
  {
    if names == [] {
    } else {
      EntriesEqualScan(raws, names[..|names| - 1]);
      SuiteEntriesEqualScan(raws, names[|names| - 1]);
    }
  }

  ghost predicate Lists(raws: seq<RawTest>, names: seq<string>, t: string) {
    exists i :: 0 <= i < |raws| && raws[i].name == t && exists s :: s in names && s in raws[i].suites
  }

  lemma SuiteScanTests(raws: seq<RawTest>, s: string, t: string)
    ensures t in ListedTests(ScanSuiteEntries(raws, s)) <==> t in ScanSuite(raws, s)
  {
    var es, listed := ScanSuiteEntries(raws, s), ScanSuite(raws, s);
    if t in listed {
      var i :| 0 <= i < |listed| && listed[i] == t;
      assert es[i].Listing? && es[i].test == t;
    }
  }

  lemma {:induction false} ScanTests(raws: seq<RawTest>, names: seq<string>, t: string)
    ensures t in ListedTests(ScanEntries(raws, names)) <==> Lists(raws, names, t)
  {
    if names == [] {
      assert ListedTests([]) == {};
    } else {
      var init, s := names[..|names| - 1], names[|names| - 1];
      assert names == init + [s];
      ScanTests(raws, init, t);
      ListedTestsConcat(ScanEntries(raws, init), ScanSuiteEntries(raws, s));
      SuiteScanTests(raws, s, t);
      ScanSuiteMembers(raws, s);
    }
  }

  /**
    After a parse into an empty index, a suite generator sends the first listings of a plain scan over
    the raw tests: every test that lists a requested suite, once, with the job of its first resolvable
    raw test, and one error per occurrence of a suite that no raw test lists.
   */
  lemma IndexEqualsScan(reg: Registry, raws: seq<RawTest>, names: seq<string>)
    ensures var ix := After(reg, EMPTY_INDEX, raws);
            var scan := ScanEntries(raws, names);
            && ForSuites(ix, names) == Items(ix, FirstListings(scan))
            && |ForSuites(ix, names)| == |ListedTests(scan)| + UnknownCount(scan)
            && TestsOnce(FirstListings(scan))
            && ListedTests(FirstListings(scan)) == ListedTests(scan)
            && (forall t :: t in ListedTests(scan) <==> Lists(raws, names, t))
            && (forall t, s ::
                  Item(ix, Listing(t, s)) ==
                  if t in ResolvedNames(reg, raws) then JobOk(FirstJob(reg, raws, t)) else ListedButMissing(t, s))
  {
    EntriesEqualScan(raws, names);
    var scan := ScanEntries(raws, names);
    FirstListingsCount(scan);
    FirstListingsOnce(scan);
    FirstListingsTests(scan);
    forall t ensures t in ListedTests(scan) <==> Lists(raws, names, t) {
      ScanTests(raws, names, t);
    }
  }

  // ----- histories of loads -----

  /** The index after some loads, the first of which went into ix. */
  function Replay(reg: Registry, ix: Index, loads: seq<Load>): Index {
    if loads == [] then ix
    else After(reg, Replay(reg, ix, loads[..|loads| - 1]), Parsed(loads[|loads| - 1]))
  }

  /** Every raw test that some load parsed. */
  function EverParsed(loads: seq<Load>): seq<RawTest> {
    if loads == [] then [] else EverParsed(loads[..|loads| - 1]) + Parsed(loads[|loads| - 1])
  }

  lemma {:induction false} ReplayIsOneParse(reg: Registry, ix: Index, loads: seq<Load>)
    ensures Replay(reg, ix, loads) == After(reg, ix, EverParsed(loads))
  {
    if loads == [] {
      AfterNothing(reg, ix);
    } else {
      var init := loads[..|loads| - 1];
      ReplayIsOneParse(reg, ix, init);
      AfterConcat(reg, ix, EverParsed(init), Parsed(loads[|loads| - 1]));
    }
  }

  lemma ReplayNext(reg: Registry, ix: Index, loads: seq<Load>, k: nat)
    requires k < |loads|
    ensures Replay(reg, ix, loads[..k + 1]) == After(reg, Replay(reg, ix, loads[..k]), Parsed(loads[k]))
  {
    assert loads[..k + 1][..k] == loads[..k];
  }

  /** A configuration that is reloaded several times goes through that history. */
  method ReloadAll(c: GreenbayTestConfig, loads: seq<Load>) returns (oks: seq<bool>)
    modifies c
    ensures c.State() == Replay(c.registry, old(c.State()), loads)
    ensures |oks| == |loads|
    ensures forall k :: 0 <= k < |loads| ==> (oks[k] <==> LoadedOk(c.registry, old(c.State()), loads, k))
  {
    oks := [];
    ghost var ix := c.State();
    for k := 0 to |loads|
      invariant LoadedTo(c.registry, ix, loads, k, c.State(), oks)
    {
      ghost var before, oksBefore := c.State(), oks;
      var ok := ReloadNext(c, loads[k]);
      oks := oks + [ok];
      LoadedNext(c.registry, ix, loads, k, before, oksBefore, ok);
    }
    assert loads[..|loads|] == loads;
  }

  /** The first k loads left this index and these verdicts. */
  ghost predicate LoadedTo(reg: Registry, ix: Index, loads: seq<Load>, k: nat, now: Index, oks: seq<bool>) {
    && k <= |loads| && |oks| == k
    && now == Replay(reg, ix, loads[..k])
    && forall l :: 0 <= l < k ==> (oks[l] <==> LoadedOk(reg, ix, loads, l))
  }

  lemma LoadedNext(reg: Registry, ix: Index, loads: seq<Load>, k: nat, now: Index, oks: seq<bool>, ok: bool)
    requires k < |loads| && LoadedTo(reg, ix, loads, k, now, oks)
    requires ok <==> loads[k].Decoded? && ErrorsOf(reg, now.tests, loads[k].raws) == []
    ensures LoadedTo(reg, ix, loads, k + 1, After(reg, now, Parsed(loads[k])), oks + [ok])
  {
    ReplayNext(reg, ix, loads, k);
  }

  /** Load k decodes, and parses without error into what the loads before it left. */
  ghost predicate LoadedOk(reg: Registry, ix: Index, loads: seq<Load>, k: nat)
    requires k < |loads|
  {
    loads[k].Decoded? && ErrorsOf(reg, Replay(reg, ix, loads[..k]).tests, loads[k].raws) == []
  }

  method ReloadNext(c: GreenbayTestConfig, load: Load) returns (ok: bool)
    modifies c
    ensures c.State() == After(c.registry, old(c.State()), Parsed(load))
    ensures ok <==> load.Decoded? && ErrorsOf(c.registry, old(c.tests), load.raws) == []
  {
    AfterNothing(c.registry, c.State());
    ok := c.Reload(load);
  }

  /**
    In every state that loads can reach, failing loads included, a listed test is missing exactly when
    every raw test ever parsed under its name failed to resolve.
   */
  lemma MissingIffNeverResolved(reg: Registry, loads: seq<Load>, s: string, t: string)
    requires var ix := Replay(reg, EMPTY_INDEX, loads); s in ix.suites && t in ix.suites[s]
    ensures t !in Replay(reg, EMPTY_INDEX, loads).tests <==>
      forall i :: 0 <= i < |EverParsed(loads)| && EverParsed(loads)[i].name == t ==>
        !Usable(reg, EverParsed(loads)[i])
    ensures exists i :: 0 <= i < |EverParsed(loads)| && EverParsed(loads)[i].name == t
  {
    ReplayIsOneParse(reg, EMPTY_INDEX, loads);
    var all := EverParsed(loads);
    ScanSuiteMembers(all, s);
    assert Replay(reg, EMPTY_INDEX, loads).suites[s] == [] + ScanSuite(all, s) == ScanSuite(all, s);
    if t in Replay(reg, EMPTY_INDEX, loads).tests {
      assert t in ResolvedNames(reg, all);
    }
  }

  /** The errors that the k-th load of a history reported. */
  function LoadErrors(reg: Registry, loads: seq<Load>, k: nat): seq<ParseError>
    requires k < |loads|
  {
    ErrorsOf(reg, Replay(reg, EMPTY_INDEX, loads[..k]).tests, Parsed(loads[k]))
  }

  lemma {:induction false} CleanHistoryResolves(reg: Registry, loads: seq<Load>)
    requires forall k :: 0 <= k < |loads| ==> LoadErrors(reg, loads, k) == []
    ensures forall i :: 0 <= i < |EverParsed(loads)| ==> Resolves(reg, EverParsed(loads)[i])
  {
    if loads == [] {
    } else {
      var n := |loads| - 1;
      var init := loads[..n];
      forall k | 0 <= k < n ensures LoadErrors(reg, init, k) == [] {
        assert init[..k] == loads[..k];
        assert LoadErrors(reg, loads, k) == [];
      }
      CleanHistoryResolves(reg, init);
      assert LoadErrors(reg, loads, n) == [];
      ErrorFree(reg, Replay(reg, EMPTY_INDEX, init).tests, Parsed(loads[n]));
    }
  }

  /** If all raw tests resolve, a listed test has a job. */
  lemma ListedHasJob(reg: Registry, raws: seq<RawTest>, names: seq<string>, t: string)
    requires forall i :: 0 <= i < |raws| ==> Resolves(reg, raws[i])
    requires t in ListedTests(ScanEntries(raws, names))
    ensures t in After(reg, EMPTY_INDEX, raws).tests
  {
    ScanTests(raws, names, t);
    var i :| 0 <= i < |raws| && raws[i].name == t;
    assert Resolves(reg, raws[i]) && t in ResolvedNames(reg, raws);
  }

  lemma KeptIsListed(es: seq<Entry>, i: nat)
    requires i < |FirstListings(es)| && FirstListings(es)[i].Listing?
    ensures FirstListings(es)[i].test in ListedTests(es)
  {
    FirstListingsTests(es);
    assert FirstListings(es)[i].test in ListedTests(FirstListings(es));
  }

  /** After loads without parse errors no generator ever reports a listed test as missing. */
  lemma CleanHistoryNothingMissing(reg: Registry, loads: seq<Load>, names: seq<string>)
    requires forall k :: 0 <= k < |loads| ==> LoadErrors(reg, loads, k) == []
    ensures var ix := Replay(reg, EMPTY_INDEX, loads);
            forall i :: 0 <= i < |ForSuites(ix, names)| ==> !ForSuites(ix, names)[i].ListedButMissing?
  {
    var ix, all := Replay(reg, EMPTY_INDEX, loads), EverParsed(loads);
    CleanHistoryResolves(reg, loads);
    ReplayIsOneParse(reg, EMPTY_INDEX, loads);
    EntriesEqualScan(all, names);
    var es := ScanEntries(all, names);
    forall i: nat | i < |FirstListings(es)| ensures !Item(ix, FirstListings(es)[i]).ListedButMissing? {
      if FirstListings(es)[i].Listing? {
        KeptIsListed(es, i);
        ListedHasJob(reg, all, names, FirstListings(es)[i].test);
      }
    }
  }

  // ----- reloading the same raw tests -----

  /** long is short followed only by repetitions of members of short. */
  ghost predicate OnlyRepeats(short: seq<string>, long: seq<string>) {
    && |short| <= |long|
    && long[..|short|] == short
    && forall k :: |short| <= k < |long| ==> long[k] in short
  }

  /** jx lists what ix lists, in the same order, and then only repeats tests of the same suite. */
  ghost predicate Padded(ix: Index, jx: Index) {
    && jx.tests == ix.tests
    && jx.suites.Keys == ix.suites.Keys
    && forall s :: s in ix.suites ==> OnlyRepeats(ix.suites[s], jx.suites[s])
  }

  lemma RepeatsAddNothing(es: seq<Entry>, short: seq<Entry>, pad: seq<Entry>)
    requires forall k :: 0 <= k < |pad| ==> pad[k].Listing? && pad[k].test in ListedTests(short)
    ensures FirstListings(es + (short + pad)) == FirstListings(es + short)
    ensures ListedTests(es + (short + pad)) == ListedTests(es + short)
  {
    assert es + (short + pad) == (es + short) + pad;
    FirstListingsConcat(es + short, pad);
    ListedTestsConcat(es, short);
    ListedTestsConcat(es + short, pad);
    UnseenOfSeen(ListedTests(es + short), pad);
    assert ListedTests(pad) <= ListedTests(short);
  }

  lemma SuiteRepeatsAddNothing(short: seq<string>, long: seq<string>, s: string, es: seq<Entry>)
    requires OnlyRepeats(short, long)
    ensures FirstListings(es + SuiteEntries(map[s := long], s)) == FirstListings(es + SuiteEntries(map[s := short], s))
    ensures ListedTests(es + SuiteEntries(map[s := long], s)) == ListedTests(es + SuiteEntries(map[s := short], s))
  {
    var before, after := SuiteEntries(map[s := short], s), SuiteEntries(map[s := long], s);
    var pad := after[|before|..];
    assert after == before + pad;
    forall k | 0 <= k < |pad| ensures pad[k].Listing? && pad[k].test in ListedTests(before) {
      var j :| 0 <= j < |short| && short[j] == long[|short| + k];
      assert before[j].Listing? && before[j].test == pad[k].test;
    }
    RepeatsAddNothing(es, before, pad);
  }

  lemma SuitePadding(ix: Index, jx: Index, s: string, es: seq<Entry>, fs: seq<Entry>)
    requires Padded(ix, jx)
    requires FirstListings(es) == FirstListings(fs) && ListedTests(es) == ListedTests(fs)
    ensures FirstListings(es + SuiteEntries(ix.suites, s)) == FirstListings(fs + SuiteEntries(jx.suites, s))
    ensures ListedTests(es + SuiteEntries(ix.suites, s)) == ListedTests(fs + SuiteEntries(jx.suites, s))
  {
    var short := SuiteEntries(ix.suites, s);
    FirstListingsConcat(es, short);
    FirstListingsConcat(fs, short);
    ListedTestsConcat(es, short);
    ListedTestsConcat(fs, short);
    if s in ix.suites {
      SuiteRepeatsAddNothing(ix.suites[s], jx.suites[s], s, fs);
      assert SuiteEntries(map[s := ix.suites[s]], s) == short;
      assert SuiteEntries(map[s := jx.suites[s]], s) == SuiteEntries(jx.suites, s);
    }
  }

  lemma {:induction false} EntriesPadding(ix: Index, jx: Index, names: seq<string>)
    requires Padded(ix, jx)
    ensures FirstListings(Entries(ix.suites, names)) == FirstListings(Entries(jx.suites, names))
    ensures ListedTests(Entries(ix.suites, names)) == ListedTests(Entries(jx.suites, names))
  {
    if names == [] {
    } else {
      var init := names[..|names| - 1];
      EntriesPadding(ix, jx, init);
      SuitePadding(ix, jx, names[|names| - 1], Entries(ix.suites, init), Entries(jx.suites, init));
    }
  }

  lemma PaddedSendsTheSame(ix: Index, jx: Index, names: seq<string>)
    requires Padded(ix, jx)
    ensures ForSuites(jx, names) == ForSuites(ix, names)
    ensures ByName(jx, names) == ByName(ix, names)
  {
    EntriesPadding(ix, jx, names);
  }

  /** k reloads of the same raw tests. */
  function Reloaded(reg: Registry, ix: Index, raws: seq<RawTest>, k: nat): Index {
    if k == 0 then ix else After(reg, Reloaded(reg, ix, raws, k - 1), raws)
  }

  /** The same file, k times. */
  function Repeated(raws: seq<RawTest>, k: nat): (loads: seq<Load>)
    ensures |loads| == k && forall i :: 0 <= i < k ==> loads[i] == Decoded(raws)
  {
    if k == 0 then [] else Repeated(raws, k - 1) + [Decoded(raws)]
  }

  lemma {:induction false} ReloadedIsReplay(reg: Registry, ix: Index, raws: seq<RawTest>, k: nat)
    ensures Reloaded(reg, ix, raws, k) == Replay(reg, ix, Repeated(raws, k))
  {
    if k == 0 {
    } else {
      ReloadedIsReplay(reg, ix, raws, k - 1);
      assert Repeated(raws, k)[..k - 1] == Repeated(raws, k - 1);
    }
  }

  lemma MoreRepeats(short: seq<string>, long: seq<string>, extra: seq<string>)
    requires OnlyRepeats(short, long) && forall n :: n in extra ==> n in short
    ensures OnlyRepeats(short, long + extra)
  {
    assert (long + extra)[..|short|] == long[..|short|];
    assert forall k | |long| <= k < |long + extra| :: (long + extra)[k] == extra[k - |long|];
  }

  /** ix already holds everything that parsing raws could add. */
  ghost predicate Absorbed(reg: Registry, ix: Index, raws: seq<RawTest>) {
    && ResolvedNames(reg, raws) <= ix.tests.Keys
    && Mentioned(raws) <= ix.suites.Keys
    && forall s :: s in ix.suites ==> forall n :: n in ScanSuite(raws, s) ==> n in ix.suites[s]
  }

  lemma ParsedIsAbsorbed(reg: Registry, before: Index, raws: seq<RawTest>)
    ensures Absorbed(reg, After(reg, before, raws), raws)
  {
    var ix := After(reg, before, raws);
    forall s, n | s in ix.suites && n in ScanSuite(raws, s) ensures n in ix.suites[s] {
      assert ix.suites[s] == ListOf(before.suites, s) + ScanSuite(raws, s);
    }
  }

  /** Parsing absorbed raw tests reports an error for each of them and takes no job. */
  lemma AbsorbedTests(reg: Registry, tests: map<string, Job>, raws: seq<RawTest>)
    requires ResolvedNames(reg, raws) <= tests.Keys
    ensures TestsAfter(reg, tests, raws) == tests
    ensures |ErrorsOf(reg, tests, raws)| == |raws|
  {
    var after := TestsAfter(reg, tests, raws);
    assert after.Keys == tests.Keys;
    assert after == tests;
    ParseConservation(reg, tests, raws);
  }

  lemma AbsorbedSuite(reg: Registry, ix: Index, jx: Index, raws: seq<RawTest>, s: string)
    requires Absorbed(reg, ix, raws) && Padded(ix, jx) && s in ix.suites
    ensures s in SuitesAfter(jx.suites, raws) && OnlyRepeats(ix.suites[s], SuitesAfter(jx.suites, raws)[s])
  {
    ListAfter(jx.suites, raws, s);
    MoreRepeats(ix.suites[s], jx.suites[s], ScanSuite(raws, s));
  }

  lemma ReloadPads(reg: Registry, ix: Index, jx: Index, raws: seq<RawTest>)
    requires Absorbed(reg, ix, raws) && Padded(ix, jx)
    ensures Padded(ix, After(reg, jx, raws))
    ensures |ErrorsOf(reg, jx.tests, raws)| == |raws|
  {
    AbsorbedTests(reg, jx.tests, raws);
    forall s | s in ix.suites ensures OnlyRepeats(ix.suites[s], SuitesAfter(jx.suites, raws)[s]) {
      AbsorbedSuite(reg, ix, jx, raws, s);
    }
    assert SuitesAfter(jx.suites, raws).Keys == ix.suites.Keys;
  }

  lemma {:induction false} ReloadsPad(reg: Registry, before: Index, raws: seq<RawTest>, k: nat)
    ensures var ix := After(reg, before, raws);
            && Padded(ix, Reloaded(reg, ix, raws, k))
            && |ErrorsOf(reg, Reloaded(reg, ix, raws, k).tests, raws)| == |raws|
  {
    var ix := After(reg, before, raws);
    ParsedIsAbsorbed(reg, before, raws);
    if k == 0 {
    } else {
      ReloadsPad(reg, before, raws, k - 1);
      ReloadPads(reg, ix, Reloaded(reg, ix, raws, k - 1), raws);
    }
    ReloadPads(reg, ix, Reloaded(reg, ix, raws, k), raws);
  }

  /**
    Once raw tests were parsed, into whatever index and with whatever errors, reloading them any number
    of times keeps every test and everything the generators send; yet each such reload reports one error
    for every raw test in the file.
   */
  lemma ReloadIdempotent(reg: Registry, before: Index, raws: seq<RawTest>, k: nat, names: seq<string>)
    ensures var ix := After(reg, before, raws);
            var again := Reloaded(reg, ix, raws, k);
            && again == Replay(reg, ix, Repeated(raws, k))
            && again.tests == ix.tests
            && ForSuites(again, names) == ForSuites(ix, names)
            && ByName(again, names) == ByName(ix, names)
            && |ErrorsOf(reg, again.tests, raws)| == |raws|
  {
    var ix := After(reg, before, raws);
    ReloadedIsReplay(reg, ix, raws, k);
    ReloadsPad(reg, before, raws, k);
    PaddedSendsTheSame(ix, Reloaded(reg, ix, raws, k), names);
  }
}
