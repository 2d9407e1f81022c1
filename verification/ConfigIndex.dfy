/**
  The index that a configuration keeps over its raw test definitions: test name to job, and suite
  name to test names.  The functions here say what an index holds after some raw tests were parsed
  into it, by scanning those raw tests; the class in Config.dfy builds it entry by entry.
 */
module ConfigIndex {
  import opened Common

  datatype RawTest = RawTest(name: string, suites: seq<string>, operation: string, rawArgs: string)

  datatype Job = Job(id: string, suites: seq<string>, operation: string, args: string)

  /** What reading and decoding the configuration file comes to; decoding can fail halfway. */
  datatype Load = Unreadable | Malformed(partial: seq<RawTest>) | Decoded(raws: seq<RawTest>)

  /** The raw tests that a load goes on to parse. */
  function Parsed(load: Load): seq<RawTest> {
    if load.Decoded? then load.raws else []
  }

  /** What a job factory builds: a check, or an amboy job that is not a check. */
  datatype Factory = CheckerFactory | PlainJobFactory

  /** The amboy job registry, and which arguments each operation can decode. */
  datatype Registry = Registry(factories: map<string, Factory>, decodes: (string, string) -> bool)

  datatype ResolveError = NoSuchOperation | NotAChecker | BadArguments

  function GetChecker(reg: Registry, t: RawTest): Result<Factory, ResolveError> {
    if t.operation !in reg.factories then Err(NoSuchOperation)
    else if reg.factories[t.operation].PlainJobFactory? then Err(NotAChecker)
    else Ok(reg.factories[t.operation])
  }

  function ResolveCheck(reg: Registry, t: RawTest): Result<Job, ResolveError> {
    var checker := GetChecker(reg, t);
    if checker.Err? then Err(checker.error)
    else if !reg.decodes(t.operation, t.rawArgs) then Err(BadArguments)
    else Ok(Job(t.name, t.suites, t.operation, t.rawArgs))
  }

  predicate Resolves(reg: Registry, t: RawTest) {
    ResolveCheck(reg, t).Ok?
  }

  /** What a raw test needs: a registered operation whose jobs are checks, and arguments it can decode. */
  predicate Usable(reg: Registry, t: RawTest) {
    && t.operation in reg.factories
    && reg.factories[t.operation].CheckerFactory?
    && reg.decodes(t.operation, t.rawArgs)
  }

  /** A usable raw test resolves to a job of its own name, suites, operation and arguments; any other one
      fails for the first of the three reasons that applies. */
  lemma ResolveCheckMeans(reg: Registry, t: RawTest)
    ensures Usable(reg, t) <==>
      && t.operation in reg.factories && reg.factories[t.operation] == CheckerFactory
      && reg.decodes(t.operation, t.rawArgs)
    ensures ResolveCheck(reg, t) ==
      if t.operation !in reg.factories then Err(NoSuchOperation)
      else if reg.factories[t.operation] == PlainJobFactory then Err(NotAChecker)
      else if reg.decodes(t.operation, t.rawArgs) then Ok(Job(t.name, t.suites, t.operation, t.rawArgs))
      else Err(BadArguments)
    ensures Resolves(reg, t) <==> Usable(reg, t)
  {
  }

  datatype Index = Index(tests: map<string, Job>, suites: map<string, seq<string>>)

  const EMPTY_INDEX := Index(map[], map[])

  // ----- what a scan over the raw tests finds -----

  /** Names of the raw tests that resolve. */
  function ResolvedNames(reg: Registry, raws: seq<RawTest>): set<string> {
    set i | 0 <= i < |raws| && Resolves(reg, raws[i]) :: raws[i].name
  }

  /** The job of the first raw test called n that resolves. */
  function FirstJob(reg: Registry, raws: seq<RawTest>, n: string): (job: Job)
    requires n in ResolvedNames(reg, raws)
    ensures job.id == n
    decreases |raws|
  {
    var job := ResolveCheck(reg, raws[0]);
    if raws[0].name == n && job.Ok? then job.value
    else FirstJob(reg, raws[1..], n)
  }

  /** Every suite that some raw test lists. */
  function Mentioned(raws: seq<RawTest>): set<string> {
    if raws == [] then {} else (set s | s in raws[0].suites) + Mentioned(raws[1..])
  }

  function Times(n: string, count: nat): seq<string> {
    seq(count, _ => n)
  }

  /** The names of the raw tests that list suite s, in file order, once per time they list it. */
  function ScanSuite(raws: seq<RawTest>, s: string): seq<string> {
    if raws == [] then []
    else Times(raws[0].name, multiset(raws[0].suites)[s]) + ScanSuite(raws[1..], s)
  }

  function ListOf(suites: map<string, seq<string>>, s: string): seq<string> {
    if s in suites then suites[s] else []
  }

  // ----- what parsing makes of an index -----

  function TestsAfter(reg: Registry, tests: map<string, Job>, raws: seq<RawTest>): map<string, Job> {
    map n | n in tests.Keys + ResolvedNames(reg, raws) ::
      if n in tests then tests[n] else FirstJob(reg, raws, n)
  }

  function SuitesAfter(suites: map<string, seq<string>>, raws: seq<RawTest>): map<string, seq<string>> {
    map s | s in suites.Keys + Mentioned(raws) :: ListOf(suites, s) + ScanSuite(raws, s)
  }

  function After(reg: Registry, ix: Index, raws: seq<RawTest>): Index {
    Index(TestsAfter(reg, ix.tests, raws), SuitesAfter(ix.suites, raws))
  }

  datatype ParseError = Unresolved(name: string, why: ResolveError) | TwoTestsNamed(name: string)

  /** The error that parsing one raw test reports, if any. */
  function EntryErrors(reg: Registry, tests: map<string, Job>, t: RawTest): seq<ParseError> {
    match ResolveCheck(reg, t)
    case Err(why) => [Unresolved(t.name, why)]
    case Ok(_) => if t.name in tests then [TwoTestsNamed(t.name)] else []
  }

  function ErrorsOf(reg: Registry, tests: map<string, Job>, raws: seq<RawTest>): seq<ParseError>
    decreases |raws|
  {
    if raws == [] then []
    else EntryErrors(reg, tests, raws[0]) + ErrorsOf(reg, TestsAfter(reg, tests, raws[..1]), raws[1..])
  }

  // ----- parsing one list after another is parsing their concatenation -----

  lemma ResolvedNamesConcat(reg: Registry, a: seq<RawTest>, b: seq<RawTest>)
    ensures ResolvedNames(reg, a + b) == ResolvedNames(reg, a) + ResolvedNames(reg, b)
  {
    forall n | n in ResolvedNames(reg, a) + ResolvedNames(reg, b) ensures n in ResolvedNames(reg, a + b) {
      if n in ResolvedNames(reg, a) {
        var i :| 0 <= i < |a| && Resolves(reg, a[i]) && a[i].name == n;
        assert (a + b)[i] == a[i];
      } else {
        var i :| 0 <= i < |b| && Resolves(reg, b[i]) && b[i].name == n;
        assert (a + b)[|a| + i] == b[i];
      }
    }
  }

  lemma {:induction false} FirstJobConcat(reg: Registry, a: seq<RawTest>, b: seq<RawTest>, n: string)
    requires n in ResolvedNames(reg, a) + ResolvedNames(reg, b)
    ensures n in ResolvedNames(reg, a + b)
    ensures FirstJob(reg, a + b, n)
         == if n in ResolvedNames(reg, a) then FirstJob(reg, a, n) else FirstJob(reg, b, n)
    decreases |a|
  {
    ResolvedNamesConcat(reg, a, b);
    if a == [] {
      assert a + b == b;
    } else {
      assert (a + b)[1..] == a[1..] + b;
      assert a == a[..1] + a[1..];
      ResolvedNamesConcat(reg, a[..1], a[1..]);
      if !(a[0].name == n && Resolves(reg, a[0])) {
        assert n !in ResolvedNames(reg, a[..1]);
        FirstJobConcat(reg, a[1..], b, n);
      } else {
        assert a[0].name in ResolvedNames(reg, a);
      }
    }
  }

  /** The job kept for a name is that of the first usable raw test of the name. */
  lemma {:induction false} FirstJobIsFirst(reg: Registry, raws: seq<RawTest>, n: string) returns (i: nat)
    requires n in ResolvedNames(reg, raws)
    ensures i < |raws| && raws[i].name == n && Usable(reg, raws[i])
    ensures forall j :: 0 <= j < i && raws[j].name == n ==> !Usable(reg, raws[j])
    ensures FirstJob(reg, raws, n) == Job(n, raws[i].suites, raws[i].operation, raws[i].rawArgs)
    decreases |raws|
  {
    i := 0;
    if !(raws[0].name == n && Resolves(reg, raws[0])) {
      var later := FirstJobIsFirst(reg, raws[1..], n);
      assert forall j :: 0 < j < |raws| ==> raws[j] == raws[1..][j - 1];
      i := later + 1;
    }
  }

  lemma {:induction false} MentionedConcat(a: seq<RawTest>, b: seq<RawTest>)
    ensures Mentioned(a + b) == Mentioned(a) + Mentioned(b)
  {
    if a == [] {
      assert a + b == b;
    } else {
      assert (a + b)[1..] == a[1..] + b;
      MentionedConcat(a[1..], b);
    }
  }

  lemma {:induction false} ScanSuiteConcat(a: seq<RawTest>, b: seq<RawTest>, s: string)
    ensures ScanSuite(a + b, s) == ScanSuite(a, s) + ScanSuite(b, s)
  {
    if a == [] {
      assert a + b == b;
    } else {
      assert (a + b)[1..] == a[1..] + b;
      ScanSuiteConcat(a[1..], b, s);
    }
  }

  /** A suite's scan holds exactly the names of the raw tests that list it. */
  lemma {:induction false} ScanSuiteMembers(raws: seq<RawTest>, s: string)
    ensures forall n :: n in ScanSuite(raws, s) <==>
      exists i :: 0 <= i < |raws| && raws[i].name == n && s in raws[i].suites
    ensures ScanSuite(raws, s) != [] <==> s in Mentioned(raws)
  {
    if raws == [] {
    } else {
      var rest := raws[1..];
      ScanSuiteMembers(rest, s);
      forall n ensures n in ScanSuite(raws, s) <==>
        exists i :: 0 <= i < |raws| && raws[i].name == n && s in raws[i].suites
      {
        if n in ScanSuite(rest, s) {
          var i :| 0 <= i < |rest| && rest[i].name == n && s in rest[i].suites;
          assert raws[i + 1] == rest[i];
        }
        if i :| 0 <= i < |raws| && raws[i].name == n && s in raws[i].suites {
          if i > 0 {
            assert rest[i - 1] == raws[i];
          } else {
            assert Times(raws[0].name, multiset(raws[0].suites)[s])[0] == n;
          }
        }
      }
      if s in raws[0].suites {
        assert ScanSuite(raws, s)[0] == raws[0].name;
      }
    }
  }

  lemma TestsAfterConcat(reg: Registry, tests: map<string, Job>, a: seq<RawTest>, b: seq<RawTest>)
    ensures TestsAfter(reg, TestsAfter(reg, tests, a), b) == TestsAfter(reg, tests, a + b)
  {
    ResolvedNamesConcat(reg, a, b);
    var twice, once := TestsAfter(reg, TestsAfter(reg, tests, a), b), TestsAfter(reg, tests, a + b);
    assert twice.Keys == once.Keys;
    forall n | n in once ensures twice[n] == once[n] {
      if n !in tests {
        FirstJobConcat(reg, a, b, n);
      }
    }
  }

  lemma ListAfter(suites: map<string, seq<string>>, raws: seq<RawTest>, s: string)
    ensures ListOf(SuitesAfter(suites, raws), s) == ListOf(suites, s) + ScanSuite(raws, s)
  {
    ScanSuiteMembers(raws, s);
  }

  lemma ListConcat(suites: map<string, seq<string>>, a: seq<RawTest>, b: seq<RawTest>, s: string)
    ensures ListOf(SuitesAfter(SuitesAfter(suites, a), b), s) == ListOf(SuitesAfter(suites, a + b), s)
  {
    ListAfter(suites, a, s);
    ListAfter(SuitesAfter(suites, a), b, s);
    ListAfter(suites, a + b, s);
    ScanSuiteConcat(a, b, s);
    ConcatAssoc(ListOf(suites, s), ScanSuite(a, s), ScanSuite(b, s));
  }

  lemma SameLists(m: map<string, seq<string>>, n: map<string, seq<string>>)
    requires m.Keys == n.Keys
    requires forall s :: ListOf(m, s) == ListOf(n, s)
    ensures m == n
  {
    assert forall s | s in m :: m[s] == ListOf(m, s) && n[s] == ListOf(n, s);
  }

  lemma SuitesAfterConcat(suites: map<string, seq<string>>, a: seq<RawTest>, b: seq<RawTest>)
    ensures SuitesAfter(SuitesAfter(suites, a), b) == SuitesAfter(suites, a + b)
  {
    MentionedConcat(a, b);
    forall s ensures ListOf(SuitesAfter(SuitesAfter(suites, a), b), s) == ListOf(SuitesAfter(suites, a + b), s) {
      ListConcat(suites, a, b, s);
    }
    SameLists(SuitesAfter(SuitesAfter(suites, a), b), SuitesAfter(suites, a + b));
  }

  /** Parsing one list after another leaves the index that parsing their concatenation leaves. */
  lemma AfterConcat(reg: Registry, ix: Index, a: seq<RawTest>, b: seq<RawTest>)
    ensures After(reg, After(reg, ix, a), b) == After(reg, ix, a + b)
  {
    TestsAfterConcat(reg, ix.tests, a, b);
    SuitesAfterConcat(ix.suites, a, b);
  }

  lemma AfterNothing(reg: Registry, ix: Index)
    ensures After(reg, ix, []) == ix
  {
    assert TestsAfter(reg, ix.tests, []) == ix.tests;
    var suites := SuitesAfter(ix.suites, []);
    assert suites.Keys == ix.suites.Keys;
    forall s | s in suites ensures suites[s] == ix.suites[s] {
      assert suites[s] == ix.suites[s] + [];
    }
    assert suites == ix.suites;
  }

  lemma FirstThenRest(reg: Registry, tests: map<string, Job>, raws: seq<RawTest>)
    requires raws != []
    ensures TestsAfter(reg, tests, raws) == TestsAfter(reg, TestsAfter(reg, tests, [raws[0]]), raws[1..])
    ensures ErrorsOf(reg, tests, raws)
         == EntryErrors(reg, tests, raws[0]) + ErrorsOf(reg, TestsAfter(reg, tests, [raws[0]]), raws[1..])
  {
    assert raws[..1] == [raws[0]] && raws == [raws[0]] + raws[1..];
    TestsAfterConcat(reg, tests, [raws[0]], raws[1..]);
  }

  lemma {:induction false} ErrorsConcat(reg: Registry, tests: map<string, Job>, a: seq<RawTest>, b: seq<RawTest>)
    ensures ErrorsOf(reg, tests, a + b)
         == ErrorsOf(reg, tests, a) + ErrorsOf(reg, TestsAfter(reg, tests, a), b)
    decreases |a|
  {
    if a == [] {
      assert a + b == b;
      assert TestsAfter(reg, tests, []) == tests;
    } else {
      assert (a + b)[1..] == a[1..] + b;
      var next := TestsAfter(reg, tests, [a[0]]);
      FirstThenRest(reg, tests, a);
      FirstThenRest(reg, tests, a + b);
      ErrorsConcat(reg, next, a[1..], b);
      ConcatAssoc(EntryErrors(reg, tests, a[0]), ErrorsOf(reg, next, a[1..]),
                  ErrorsOf(reg, TestsAfter(reg, tests, a), b));
    }
  }

  // ----- what a parse promises -----

  /** One raw test: its job is taken only under a new name, and exactly then no error is reported. */
  lemma OneEntry(reg: Registry, tests: map<string, Job>, t: RawTest)
    ensures TestsAfter(reg, tests, [t])
         == if t.name !in tests && Resolves(reg, t) then tests[t.name := ResolveCheck(reg, t).value] else tests
  {
    var after := TestsAfter(reg, tests, [t]);
    assert [t][0] == t;
    if Resolves(reg, t) {
      assert ResolvedNames(reg, [t]) == {t.name};
      if t.name in tests {
        assert after == tests;
      } else {
        assert after == tests[t.name := ResolveCheck(reg, t).value];
      }
    } else {
      assert ResolvedNames(reg, [t]) == {};
      assert after == tests;
    }
  }

  /** The first i raw tests were parsed into start: they made ix and reported errs. */
  ghost predicate ParsedTo(reg: Registry, start: Index, raws: seq<RawTest>, i: nat, ix: Index, errs: seq<ParseError>) {
    && i <= |raws|
    && ix == After(reg, start, raws[..i])
    && errs == ErrorsOf(reg, start.tests, raws[..i])
  }

  lemma ParsedNext(reg: Registry, start: Index, raws: seq<RawTest>, i: nat, ix: Index, errs: seq<ParseError>)
    requires i < |raws| && ParsedTo(reg, start, raws, i, ix, errs)
    ensures ParsedTo(reg, start, raws, i + 1, After(reg, ix, [raws[i]]), errs + EntryErrors(reg, ix.tests, raws[i]))
  {
    assert raws[..i + 1] == raws[..i] + [raws[i]];
    AfterConcat(reg, start, raws[..i], [raws[i]]);
    ErrorsConcat(reg, start.tests, raws[..i], [raws[i]]);
    assert [raws[i]][1..] == [];
    assert ErrorsOf(reg, ix.tests, [raws[i]]) == EntryErrors(reg, ix.tests, raws[i]) + [];
  }

  lemma ErrorsOfOne(reg: Registry, tests: map<string, Job>, t: RawTest)
    ensures ErrorsOf(reg, tests, [t]) == EntryErrors(reg, tests, t)
  {
    assert [t][1..] == [];
    assert ErrorsOf(reg, tests, [t]) == EntryErrors(reg, tests, t) + [];
  }

  /**
    Parsing one raw test, without the functions that resolve it: it gets its job iff it is usable and its
    name is new, and otherwise the tests stay and the one error says why.
   */
  lemma OneRawTest(reg: Registry, tests: map<string, Job>, t: RawTest)
    ensures var usable := t.operation in reg.factories && reg.factories[t.operation].CheckerFactory?
                          && reg.decodes(t.operation, t.rawArgs);
            var after, errs := TestsAfter(reg, tests, [t]), ErrorsOf(reg, tests, [t]);
            && (usable && t.name !in tests ==>
                  errs == [] && after == tests[t.name := Job(t.name, t.suites, t.operation, t.rawArgs)])
            && (usable && t.name in tests ==> errs == [TwoTestsNamed(t.name)] && after == tests)
            && (t.operation !in reg.factories ==> errs == [Unresolved(t.name, NoSuchOperation)] && after == tests)
            && (t.operation in reg.factories && reg.factories[t.operation].PlainJobFactory? ==>
                  errs == [Unresolved(t.name, NotAChecker)] && after == tests)
            && (t.operation in reg.factories && reg.factories[t.operation].CheckerFactory? && !usable ==>
                  errs == [Unresolved(t.name, BadArguments)] && after == tests)
  {
    ErrorsOfOne(reg, tests, t);
    OneEntry(reg, tests, t);
    ResolveCheckMeans(reg, t);
  }

  lemma OneEntryCount(reg: Registry, tests: map<string, Job>, t: RawTest)
    ensures |TestsAfter(reg, tests, [t])| + |EntryErrors(reg, tests, t)| == |tests| + 1
  {
    OneEntry(reg, tests, t);
  }

  /** Each raw test adds either a test or an error. */
  lemma {:induction false} ParseConservation(reg: Registry, tests: map<string, Job>, raws: seq<RawTest>)
    ensures |TestsAfter(reg, tests, raws)| + |ErrorsOf(reg, tests, raws)| == |tests| + |raws|
    decreases |raws|
  {
    if raws == [] {
      assert TestsAfter(reg, tests, []) == tests;
    } else {
      FirstThenRest(reg, tests, raws);
      OneEntryCount(reg, tests, raws[0]);
      ParseConservation(reg, TestsAfter(reg, tests, [raws[0]]), raws[1..]);
    }
  }

  /** When a parse is free of errors, in terms of the file and of the names already present. */
  ghost predicate CleanInput(reg: Registry, tests: map<string, Job>, raws: seq<RawTest>) {
    && (forall i :: 0 <= i < |raws| ==> Usable(reg, raws[i]) && raws[i].name !in tests)
    && (forall i, j :: 0 <= i < j < |raws| ==> raws[i].name != raws[j].name)
  }

  lemma {:induction false} ErrorFree(reg: Registry, tests: map<string, Job>, raws: seq<RawTest>)
    ensures ErrorsOf(reg, tests, raws) == [] <==> CleanInput(reg, tests, raws)
    decreases |raws|
  {
    if raws == [] {
    } else {
      var next, rest := TestsAfter(reg, tests, raws[..1]), raws[1..];
      OneEntry(reg, tests, raws[0]);
      assert raws[..1] == [raws[0]];
      ErrorFree(reg, next, rest);
      if CleanInput(reg, tests, raws) {
        assert forall i :: 0 <= i < |rest| ==> rest[i] == raws[i + 1];
        assert CleanInput(reg, next, rest);
      }
      if EntryErrors(reg, tests, raws[0]) == [] && CleanInput(reg, next, rest) {
        assert forall i :: 0 < i < |raws| ==> raws[i] == rest[i - 1];
      }
    }
  }
}
