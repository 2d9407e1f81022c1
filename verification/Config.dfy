/** The configuration object: its maps are filled entry by entry and its generators walk them. */
module Config {
  import opened Common
  import opened ConfigIndex
  import opened Generators

  /** after is before with name appended to the list of each suite in names, once per occurrence. */
  ghost predicate Appended(before: map<string, seq<string>>, after: map<string, seq<string>>,
                           name: string, names: seq<string>)
  {
    && after.Keys == before.Keys + (set s | s in names)
    && forall s :: s in after ==> after[s] == ListOf(before, s) + Times(name, multiset(names)[s])
  }

  lemma TimesMore(name: string, names: seq<string>, suite: string, s: string)
    ensures Times(name, multiset(names + [suite])[s])
         == Times(name, multiset(names)[s]) + (if s == suite then [name] else [])
  {
    assert multiset(names + [suite])[s] == multiset(names)[s] + (if s == suite then 1 else 0);
  }

  lemma AppendOneAt(before: map<string, seq<string>>, after: map<string, seq<string>>,
                    name: string, names: seq<string>, suite: string, s: string)
    requires Appended(before, after, name, names) && (s in after || s == suite)
    ensures (if s == suite then ListOf(after, suite) + [name] else after[s])
         == ListOf(before, s) + Times(name, multiset(names + [suite])[s])
  {
    TimesMore(name, names, suite, s);
    if s !in after {
      assert s !in names && multiset(names)[s] == 0;
    }
  }

  lemma AppendOne(before: map<string, seq<string>>, after: map<string, seq<string>>,
                  name: string, names: seq<string>, suite: string, more: map<string, seq<string>>)
    requires Appended(before, after, name, names)
    requires more == after[suite := ListOf(after, suite) + [name]]
    ensures Appended(before, more, name, names + [suite])
  {
    assert (set s | s in names + [suite]) == (set s | s in names) + {suite};
    forall s | s in more ensures more[s] == ListOf(before, s) + Times(name, multiset(names + [suite])[s]) {
      AppendOneAt(before, after, name, names, suite, s);
    }
  }

  /** name appended to the list of one suite after the other. */
  function Append(suites: map<string, seq<string>>, name: string, names: seq<string>): map<string, seq<string>> {
    if names == [] then suites
    else
      var init := Append(suites, name, names[..|names| - 1]);
      init[names[|names| - 1] := ListOf(init, names[|names| - 1]) + [name]]
  }

  lemma {:induction false} AppendIsAppended(suites: map<string, seq<string>>, name: string, names: seq<string>)
    ensures Appended(suites, Append(suites, name, names), name, names)
  {
    if names == [] {
    } else {
      var init, suite := names[..|names| - 1], names[|names| - 1];
      assert names == init + [suite];
      AppendIsAppended(suites, name, init);
      AppendOne(suites, Append(suites, name, init), name, init, suite, Append(suites, name, names));
    }
  }

  lemma AppendedIsOneEntry(before: map<string, seq<string>>, after: map<string, seq<string>>, t: RawTest)
    requires Appended(before, after, t.name, t.suites)
    ensures after == SuitesAfter(before, [t])
  {
    assert [t][1..] == [];
    assert Mentioned([t]) == (set s | s in t.suites) + {};
    forall s | s in after ensures after[s] == SuitesAfter(before, [t])[s] {
      assert ScanSuite([t], s) == Times(t.name, multiset(t.suites)[s]) + [];
    }
  }

  /** One turn of the parse loop: the listings are added first, then the job or an error. */
  lemma EntryParsed(reg: Registry, start: Index, raws: seq<RawTest>, i: nat, before: Index, errs: seq<ParseError>,
                    after: Index, more: seq<ParseError>)
    requires i < |raws| && ParsedTo(reg, start, raws, i, before, errs)
    requires Appended(before.suites, after.suites, raws[i].name, raws[i].suites)
    requires more == errs + EntryErrors(reg, before.tests, raws[i])
    requires after.tests == if EntryErrors(reg, before.tests, raws[i]) != [] then before.tests
                            else before.tests[raws[i].name := ResolveCheck(reg, raws[i]).value]
    ensures ParsedTo(reg, start, raws, i + 1, after, more)
  {
    AppendedIsOneEntry(before.suites, after.suites, raws[i]);
    OneEntry(reg, before.tests, raws[i]);
    ParsedNext(reg, start, raws, i, before, errs);
  }

  /** What a parse makes of the keys, and when it is free of errors, without the functions that resolve. */
  lemma ParsedMeans(reg: Registry, tests: map<string, Job>, raws: seq<RawTest>)
    ensures TestsAfter(reg, tests, raws).Keys
         == tests.Keys + (set i | 0 <= i < |raws| && Usable(reg, raws[i]) :: raws[i].name)
    ensures ErrorsOf(reg, tests, raws) == [] <==>
      && (forall i :: 0 <= i < |raws| ==> Usable(reg, raws[i]) && raws[i].name !in tests)
      && (forall i, j :: 0 <= i < j < |raws| ==> raws[i].name != raws[j].name)
  {
    ErrorFree(reg, tests, raws);
    assert ResolvedNames(reg, raws) == set i | 0 <= i < |raws| && Usable(reg, raws[i]) :: raws[i].name;
  }

  class GreenbayTestConfig {
    const registry: Registry
    var RawTests: seq<RawTest>
    var tests: map<string, Job>
    var suites: map<string, seq<string>>

    function State(): Index
      reads this
    {
      Index(tests, suites)
    }

    constructor (registry: Registry)
      ensures State() == EMPTY_INDEX && RawTests == [] && this.registry == registry
    {
      this.registry := registry;
      RawTests, tests, suites := [], map[], map[];
      new;
      Reset();
    }

    method Reset()
      modifies this`tests, this`suites
      ensures State() == EMPTY_INDEX
    {
      suites := map[];
      tests := map[];
    }

    /** A new configuration is kept only when the file decodes and every raw test in it parses. */
    static method ReadConfig(registry: Registry, load: Load) returns (conf: GreenbayTestConfig?)
      ensures conf != null ==> fresh(conf) && conf.registry == registry
      ensures conf != null <==> load.Decoded? && ErrorsOf(registry, map[], load.raws) == []
      ensures conf != null ==> conf.State() == After(registry, EMPTY_INDEX, load.raws) && conf.RawTests == load.raws
    {
      var c := new GreenbayTestConfig(registry);
      if !load.Decoded? {
        return null;
      }
      c.RawTests := load.raws;
      var errs := c.ParseTests();
      conf := if errs != [] then null else c;
    }

    /** Parses on top of the maps: nothing is removed, even when the new file no longer mentions it. */
    method Reload(load: Load) returns (ok: bool)
      modifies this
      ensures load.Decoded? ==> State() == After(registry, old(State()), load.raws)
      ensures !load.Decoded? ==> State() == old(State())
      ensures RawTests == match load { case Unreadable => old(RawTests) case Malformed(p) => p case Decoded(r) => r }
      ensures ok <==> load.Decoded? && ErrorsOf(registry, old(tests), load.raws) == []
    {
      AfterNothing(registry, State());
      match load
      case Unreadable =>
        ok := false;
      case Malformed(partial) =>
        RawTests := partial;
        ok := false;
      case Decoded(raws) =>
        RawTests := raws;
        var errs := ParseTests();
        ok := errs == [];
    }

    method ParseTests() returns (errs: seq<ParseError>)
      modifies this`tests, this`suites
      ensures State() == After(registry, old(State()), RawTests)
      ensures errs == ErrorsOf(registry, old(tests), RawTests)
      ensures tests.Keys
           == old(tests).Keys + (set i | 0 <= i < |RawTests| && Usable(registry, RawTests[i]) :: RawTests[i].name)
      ensures errs == [] <==>
        && (forall i :: 0 <= i < |RawTests| ==> Usable(registry, RawTests[i]) && RawTests[i].name !in old(tests))
        && (forall i, j :: 0 <= i < j < |RawTests| ==> RawTests[i].name != RawTests[j].name)
    {
      errs := [];
      ghost var start := State();
      AfterNothing(registry, start);
      for i := 0 to |RawTests|
        invariant ParsedTo(registry, start, RawTests, i, State(), errs)
      {
        var msg := RawTests[i];
        ghost var before, errsBefore := State(), errs;
        AddSuites(msg.name, msg.suites);
        var testJob := ResolveCheck(registry, msg);
        if testJob.Err? {
          errs := errs + [Unresolved(msg.name, testJob.error)];
        } else {
          var err := AddTest(msg.name, testJob.value);
          if err.Some? {
            errs := errs + [err.value];
          }
        }
        EntryParsed(registry, start, RawTests, i, before, errsBefore, State(), errs);
      }
      assert RawTests[..|RawTests|] == RawTests;
      ParsedMeans(registry, start.tests, RawTests);
    }

    method AddSuites(name: string, names: seq<string>)
      modifies this`suites
      ensures Appended(old(suites), suites, name, names)
      ensures forall s :: s in suites <==> s in old(suites) || s in names
      ensures forall s :: s in suites ==>
        var was: seq<string> := if s in old(suites) then old(suites)[s] else [];
        && was <= suites[s] && |suites[s]| == |was| + multiset(names)[s]
        && forall k :: |was| <= k < |suites[s]| ==> suites[s][k] == name
    {
      for k := 0 to |names|
        invariant suites == Append(old(suites), name, names[..k])
      {
        var suite := names[k];
        assert names[..k + 1][..k] == names[..k];
        if suite !in suites {
          suites := suites[suite := []];
        }
        suites := suites[suite := suites[suite] + [name]];
      }
      assert names[..|names|] == names;
      AppendIsAppended(old(suites), name, names);
    }

    method AddTest(name: string, j: Job) returns (err: Option<ParseError>)
      modifies this`tests
      ensures name in old(tests) ==> tests == old(tests) && err == Some(TwoTestsNamed(name))
      ensures name !in old(tests) ==> tests == old(tests)[name := j] && err == None
    {
      if name in tests {
        return Some(TwoTestsNamed(name));
      }
      tests := tests[name := j];
      return None;
    }

    /** What the goroutine of TestsByName sends while it holds the read lock. */
    method TestsByName(names: seq<string>) returns (output: seq<JobWithError>)
      ensures output == ByName(State(), names)
      ensures |output| == |names|
      ensures forall i :: 0 <= i < |names| ==>
        output[i] == if names[i] in tests then JobOk(tests[names[i]]) else NoTestNamed(names[i])
    {
      output := [];
      for i := 0 to |names|
        invariant output == ByName(State(), names[..i])
      {
        var test := names[i];
        if test !in tests {
          output := output + [NoTestNamed(test)];
        } else {
          output := output + [JobOk(tests[test])];
        }
      }
      assert names[..|names|] == names;
    }

    /** What the goroutine of TestsForSuites sends while it holds the read lock. */
    method TestsForSuites(names: seq<string>) returns (output: seq<JobWithError>)
      ensures output == ForSuites(State(), names)
    {
      output := [];
      var seen: set<string> := {};
      ghost var ix := State();
      WalkStart(ix, names);
      for i := 0 to |names|
        invariant Walked(ix, names, i, 0, seen, output)
      {
        var suite := names[i];
        if suite !in suites {
          WalkUnknownSuite(ix, names, i, seen, output);
          output := output + [NoSuiteNamed(suite)];
          continue;
        }
        var listed := suites[suite];
        for j := 0 to |listed|
          invariant Walked(ix, names, i, j, seen, output)
        {
          var test := listed[j];
          WalkListing(ix, names, i, j, seen, output);
          if test in seen {
            continue;
          }
          seen := seen + {test};
          if test !in tests {
            output := output + [ListedButMissing(test, suite)];
          } else {
            output := output + [JobOk(tests[test])];
          }
        }
        WalkSuiteDone(ix, names, i, seen, output);
      }
      WalkEnd(ix, names, seen, output);
    }

    /** Without a reload in between, both generators read the same index. */
    method GetAllTests(names: seq<string>, suiteNames: seq<string>) returns (output: seq<JobWithError>)
      ensures output == ByName(State(), names) + ForSuites(State(), suiteNames)
    {
      var first := TestsByName(names);
      var second := TestsForSuites(suiteNames);
      output := first + second;
    }
  }
}
