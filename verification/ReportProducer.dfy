/**
  The report producer keeps, under each name, the address of a loop variable.  Whether the loop has one
  variable per iteration (as of Go 1.22) or one for all of them (before) decides what the report shows.
 */
module ReportProducer {
  import opened Common
  import opened Greenbay
  import opened Converter

  /** Each name with the last output under it. */
  function LastNamed(outputs: seq<CheckOutput>): map<string, CheckOutput> {
    if outputs == [] then map[]
    else
      var o := outputs[|outputs| - 1];
      LastNamed(outputs[..|outputs| - 1])[o.name := o]
  }

  /** What the shared loop variable holds at the end; an error unit leaves an empty output in it. */
  function FinalOutput(units: seq<WorkUnit>): CheckOutput {
    if units == [] then NO_OUTPUT else units[|units| - 1].output
  }

  /** What the report shows. */
  function Shown(perIteration: bool, units: seq<WorkUnit>): map<string, CheckOutput> {
    var own := LastNamed(Outputs(units));
    if perIteration then own else map n | n in own :: FinalOutput(units)
  }

  predicate AnyFailure(units: seq<WorkUnit>) {
    Errors(units) != [] || WithVerdict(Outputs(units), false) != []
  }

  datatype ReportState = ReportState(hasErrors: bool, results: map<string, CheckOutput>)

  /** The flag is sticky; the map is only that of the last call. */
  function ReportAfter(perIteration: bool, st: ReportState, skip: bool, jobs: seq<QueuedJob>): ReportState {
    var units := Units(skip, jobs);
    ReportState(st.hasErrors || AnyFailure(units), Shown(perIteration, units))
  }

  /** The memory that the address of a check output names. */
  class Variable {
    var output: CheckOutput

    constructor ()
      ensures output == NO_OUTPUT
    {
      output := NO_OUTPUT;
    }
  }

  class Report {
    var hasErrors: bool
    var skipPassing: bool
    var results: map<string, Variable>

    function State(): ReportState
      reads this, set n | n in results :: results[n]
    {
      ReportState(hasErrors, map n | n in results :: results[n].output)
    }

    constructor ()
      ensures State() == ReportState(false, map[]) && !skipPassing
      ensures results == map[]
    {
      hasErrors, skipPassing, results := false, false, map[];
    }

    method SkipPassing()
      modifies this`skipPassing
      ensures skipPassing
    {
      skipPassing := true;
    }

    method Populate(jobs: seq<QueuedJob>, perIteration: bool) returns (errs: seq<string>)
      modifies this`hasErrors, this`results
      ensures State() == ReportAfter(perIteration, old(State()), skipPassing, jobs)
      ensures errs == Errors(Units(skipPassing, jobs))
      ensures forall n :: n in results ==> fresh(results[n])
    {
      results := map[];
      var units := JobsToCheck(skipPassing, jobs);
      var shared := new Variable();
      errs := Collect(units, shared, perIteration);
      assert State().results == Shown(perIteration, units);
    }

    /** The loop of Populate; shared is its variable unless each iteration has its own. */
    method Collect(units: seq<WorkUnit>, shared: Variable, perIteration: bool) returns (errs: seq<string>)
      requires results == map[] && shared.output == NO_OUTPUT
      modifies this`hasErrors, this`results, shared
      ensures errs == Errors(units)
      ensures hasErrors <==> old(hasErrors) || AnyFailure(units)
      ensures results.Keys == LastNamed(Outputs(units)).Keys
      ensures perIteration ==>
        forall n :: n in results ==> fresh(results[n]) && results[n].output == LastNamed(Outputs(units))[n]
      ensures !perIteration ==> shared.output == FinalOutput(units) && forall n :: n in results ==> results[n] == shared
    {
      errs := [];
      ghost var own: map<string, CheckOutput> := map[];
      for i := 0 to |units|
        invariant errs == Errors(units[..i]) && own == LastNamed(Outputs(units[..i]))
        invariant hasErrors <==> old(hasErrors) || AnyFailure(units[..i])
        invariant results.Keys == own.Keys
        invariant perIteration ==> forall n :: n in results ==> fresh(results[n]) && results[n].output == own[n]
        invariant !perIteration ==>
          shared.output == FinalOutput(units[..i]) && forall n :: n in results ==> results[n] == shared
      {
        var check := shared;
        if perIteration {
          check := new Variable();
        }
        NextUnit(units, i);
        Record(units[i], check);
        if units[i].err.Some? {
          errs := errs + [units[i].err.value];
        } else {
          own := own[units[i].output.name := units[i].output];
        }
      }
      assert units[..|units|] == units;
    }

    /** The loop body: check is the loop variable of this iteration. */
    method Record(unit: WorkUnit, check: Variable)
      modifies this`hasErrors, this`results, check
      ensures check.output == unit.output
      ensures hasErrors <==> old(hasErrors) || unit.err.Some? || !unit.output.passed
      ensures results == if unit.err.Some? then old(results) else old(results)[unit.output.name := check]
    {
      check.output := unit.output;
      if unit.err.Some? {
        hasErrors := true;
        return;
      }
      results := results[check.output.name := check];
      if !check.output.passed {
        hasErrors := true;
      }
    }

    method Print(encodes: bool) returns (ok: bool)
      ensures ok <==> encodes && !hasErrors
    {
      ok := encodes && !hasErrors;
    }

    method ToFile(encodes: bool, writable: bool) returns (ok: bool)
      ensures ok <==> encodes && writable && !hasErrors
    {
      ok := encodes && writable && !hasErrors;
    }
  }

  /** Options.Report: the map of a fresh report, or an empty one next to an error. */
  method ReportOf(jobs: seq<QueuedJob>, perIteration: bool) returns (output: map<string, Variable>, errs: seq<string>)
    ensures errs == Errors(Units(false, jobs))
    ensures errs != [] ==> output == map[]
    ensures errs == [] ==> (map n | n in output :: output[n].output) == Shown(perIteration, Units(false, jobs))
    ensures forall n :: n in output ==> fresh(output[n])
  {
    var rp := new Report();
    output := map[];
    errs := rp.Populate(jobs, perIteration);
    if errs != [] {
      return;
    }
    var left := rp.results.Keys;
    while left != {}
      invariant left <= rp.results.Keys && output.Keys == rp.results.Keys - left
      invariant forall n :: n in output ==> output[n] == rp.results[n]
    {
      var k :| k in left;
      output := output[k := rp.results[k]];
      left := left - {k};
    }
    assert output == rp.results;
    assert (map n | n in output :: output[n].output) == rp.State().results;
  }

  /** What unit i adds. */
  lemma NextUnit(units: seq<WorkUnit>, i: nat)
    requires i < |units|
    ensures var was, now, u := units[..i], units[..i + 1], units[i];
            && Errors(now) == Errors(was) + (if u.err.Some? then [u.err.value] else [])
            && LastNamed(Outputs(now))
               == (if u.err.None? then LastNamed(Outputs(was))[u.output.name := u.output] else LastNamed(Outputs(was)))
            && (AnyFailure(now) <==> AnyFailure(was) || u.err.Some? || !u.output.passed)
            && FinalOutput(now) == u.output
  {
    assert units[..i + 1] == units[..i] + [units[i]];
    UnitsSnoc(units[..i], units[i]);
    LastNamedSnoc(Outputs(units[..i]), units[i].output);
    OutputsSnoc(Outputs(units[..i]), units[i].output, false);
    assert Outputs(units[..i]) + [] == Outputs(units[..i]);
  }

  lemma LastNamedSnoc(outputs: seq<CheckOutput>, o: CheckOutput)
    ensures LastNamed(outputs + [o]) == LastNamed(outputs)[o.name := o]
  {
    assert (outputs + [o])[..|outputs|] == outputs;
  }

  // ----- with one variable per iteration each name shows its own output -----

  ghost predicate NamesDistinct(outputs: seq<CheckOutput>) {
    forall i, j :: 0 <= i < j < |outputs| ==> outputs[i].name != outputs[j].name
  }

  /** A name shows the last output under it. */
  lemma {:induction false} LastShown(outputs: seq<CheckOutput>, i: nat)
    requires i < |outputs| && forall j :: i < j < |outputs| ==> outputs[j].name != outputs[i].name
    ensures outputs[i].name in LastNamed(outputs) && LastNamed(outputs)[outputs[i].name] == outputs[i]
  {
    if i < |outputs| - 1 {
      LastShown(outputs[..|outputs| - 1], i);
    }
  }

  lemma OwnOutput(outputs: seq<CheckOutput>, i: nat)
    requires NamesDistinct(outputs) && i < |outputs|
    ensures outputs[i].name in LastNamed(outputs) && LastNamed(outputs)[outputs[i].name] == outputs[i]
  {
    LastShown(outputs, i);
  }

  /** Some output has the name. */
  ghost predicate Recorded(outputs: seq<CheckOutput>, n: string) {
    exists i :: 0 <= i < |outputs| && outputs[i].name == n
  }

  /** No later output has the name of output i. */
  ghost predicate LastOfName(outputs: seq<CheckOutput>, i: int) {
    0 <= i < |outputs| && forall j :: i < j < |outputs| ==> outputs[j].name != outputs[i].name
  }

  /** With one variable per iteration a report shows exactly the recorded names, each with its last output. */
  lemma ShowsOwn(units: seq<WorkUnit>)
    ensures forall n :: n in Shown(true, units) <==> Recorded(Outputs(units), n)
    ensures forall i :: LastOfName(Outputs(units), i) ==>
      var o := Outputs(units)[i]; o.name in Shown(true, units) && Shown(true, units)[o.name] == o
  {
    assert Shown(true, units) == LastNamed(Outputs(units));
    NamesShown(Outputs(units));
    ShowsLast(Outputs(units));
  }

  lemma ShowsLast(outputs: seq<CheckOutput>)
    ensures forall i :: LastOfName(outputs, i) ==>
      outputs[i].name in LastNamed(outputs) && LastNamed(outputs)[outputs[i].name] == outputs[i]
  {
    forall i | LastOfName(outputs, i)
      ensures outputs[i].name in LastNamed(outputs) && LastNamed(outputs)[outputs[i].name] == outputs[i]
    {
      LastShown(outputs, i);
    }
  }

  lemma {:induction false} ShowsSomeOutput(outputs: seq<CheckOutput>, n: string) returns (i: nat)
    requires n in LastNamed(outputs)
    ensures i < |outputs| && outputs[i].name == n
  {
    i := |outputs| - 1;
    if outputs[i].name != n {
      i := ShowsSomeOutput(outputs[..|outputs| - 1], n);
    }
  }

  lemma WithoutOne<T>(s: seq<T>, k: nat)
    requires k < |s|
    ensures multiset(s) == multiset(s[..k] + s[k + 1..]) + multiset{s[k]}
    ensures multiset(s[..k] + s[k + 1..]) == multiset(s) - multiset{s[k]}
  {
    assert s == s[..k] + [s[k]] + s[k + 1..];
  }

  lemma CountedTwice(outputs: seq<CheckOutput>, i: nat, j: nat)
    requires i < j < |outputs| && outputs[i] == outputs[j]
    ensures multiset(outputs)[outputs[i]] >= 2
  {
    WithoutOne(outputs, i);
    assert outputs[j] == (outputs[..i] + outputs[i + 1..])[j - 1];
    assert outputs[j] in multiset(outputs[..i] + outputs[i + 1..]);
  }

  lemma CountedOnce(outputs: seq<CheckOutput>, k: nat)
    requires NamesDistinct(outputs) && k < |outputs|
    ensures multiset(outputs)[outputs[k]] == 1
  {
    WithoutOne(outputs, k);
    var rest := outputs[..k] + outputs[k + 1..];
    forall l | 0 <= l < |rest| ensures rest[l] != outputs[k] {
      assert rest[l] == outputs[if l < k then l else l + 1];
    }
    assert outputs[k] !in multiset(rest);
  }

  lemma DistinctInAnyOrder(a: seq<CheckOutput>, b: seq<CheckOutput>)
    requires NamesDistinct(a) && multiset(a) == multiset(b)
    ensures NamesDistinct(b)
  {
    forall i, j | 0 <= i < j < |b| ensures b[i].name != b[j].name {
      assert b[i] in multiset(a) && b[j] in multiset(a);
      var k :| 0 <= k < |a| && a[k] == b[i];
      var l :| 0 <= l < |a| && a[l] == b[j];
      CountedOnce(a, k);
      if b[i] == b[j] {
        CountedTwice(b, i, j);
        assert false;
      }
    }
  }

  /** Any order of the same outputs gives the same report. */
  lemma ReportOrderIndependent(a: seq<CheckOutput>, b: seq<CheckOutput>)
    requires NamesDistinct(a) && multiset(a) == multiset(b)
    ensures LastNamed(a) == LastNamed(b)
  {
    DistinctInAnyOrder(a, b);
    ReportWithin(a, b);
    ReportWithin(b, a);
    assert LastNamed(a).Keys == LastNamed(b).Keys;
  }

  lemma {:induction false} OutputsConcat(a: seq<WorkUnit>, b: seq<WorkUnit>)
    ensures Outputs(a + b) == Outputs(a) + Outputs(b)
  {
    if b == [] {
      assert a + b == a;
    } else {
      assert (a + b)[..|a + b| - 1] == a + b[..|b| - 1];
      OutputsConcat(a, b[..|b| - 1]);
    }
  }

  function OutputsOf(skip: bool, jobs: seq<QueuedJob>): seq<CheckOutput> {
    Outputs(Units(skip, jobs))
  }

  lemma OutputsOfConcat(skip: bool, a: seq<QueuedJob>, b: seq<QueuedJob>)
    ensures OutputsOf(skip, a + b) == OutputsOf(skip, a) + OutputsOf(skip, b)
  {
    UnitsConcat(skip, a, b);
    OutputsConcat(Units(skip, a), Units(skip, b));
  }

  lemma SameButOne(a: seq<QueuedJob>, b: seq<QueuedJob>) returns (k: nat)
    requires multiset(a) == multiset(b) && a != []
    ensures k < |b| && b[k] == a[0] && multiset(a[..0] + a[1..]) == multiset(b[..k] + b[k + 1..])
  {
    assert a[0] in multiset(a) && a[0] in multiset(b);
    k :| 0 <= k < |b| && b[k] == a[0];
    WithoutOne(a, 0);
    WithoutOne(b, k);
  }

  /** What job k contributes, whatever surrounds it. */
  lemma OutputsWithout(skip: bool, jobs: seq<QueuedJob>, k: nat)
    requires k < |jobs|
    ensures multiset(OutputsOf(skip, jobs))
         == multiset(OutputsOf(skip, jobs[..k] + jobs[k + 1..])) + multiset(OutputsOf(skip, [jobs[k]]))
  {
    var front, back := jobs[..k], jobs[k + 1..];
    assert jobs == front + ([jobs[k]] + back);
    OutputsOfConcat(skip, front, [jobs[k]] + back);
    OutputsOfConcat(skip, [jobs[k]], back);
    OutputsOfConcat(skip, front, back);
  }

  /** The same jobs in any order give the same outputs in some order. */
  lemma {:induction false} OutputsInAnyOrder(skip: bool, a: seq<QueuedJob>, b: seq<QueuedJob>)
    requires multiset(a) == multiset(b)
    ensures multiset(OutputsOf(skip, a)) == multiset(OutputsOf(skip, b))
    decreases |a|
  {
    assert |a| == |multiset(a)| == |multiset(b)| == |b|;
    if a == [] {
    } else {
      var k := SameButOne(a, b);
      OutputsInAnyOrder(skip, a[..0] + a[1..], b[..k] + b[k + 1..]);
      OutputsWithout(skip, a, 0);
      OutputsWithout(skip, b, k);
    }
  }

  lemma AnyFailureOfJobs(skip: bool, jobs: seq<QueuedJob>)
    ensures AnyFailure(Units(skip, jobs)) <==> !AllPassed(jobs)
    ensures AnyFailure(Units(skip, jobs)) <==> exists i :: 0 <= i < |jobs| && (jobs[i].Plain? || !jobs[i].output.passed)
  {
    FailingUnits(skip, jobs);
  }

  lemma AllPassedInAnyOrder(a: seq<QueuedJob>, b: seq<QueuedJob>)
    requires multiset(a) == multiset(b) && AllPassed(a)
    ensures AllPassed(b)
  {
    forall i | 0 <= i < |b| ensures b[i].Check? && b[i].output.passed {
      assert b[i] in multiset(b) && b[i] in multiset(a);
    }
  }

  /** A report on differently named checks does not depend on the order in which jobs complete. */
  lemma ReportOfAnyOrder(st: ReportState, skip: bool, a: seq<QueuedJob>, b: seq<QueuedJob>)
    requires multiset(a) == multiset(b) && NamesDistinct(OutputsOf(skip, a))
    ensures ReportAfter(true, st, skip, a) == ReportAfter(true, st, skip, b)
  {
    OutputsInAnyOrder(skip, a, b);
    ReportOrderIndependent(OutputsOf(skip, a), OutputsOf(skip, b));
    AnyFailureOfJobs(skip, a);
    AnyFailureOfJobs(skip, b);
    if AllPassed(a) {
      AllPassedInAnyOrder(a, b);
    }
    if AllPassed(b) {
      AllPassedInAnyOrder(b, a);
    }
  }

  lemma ReportWithin(a: seq<CheckOutput>, b: seq<CheckOutput>)
    requires NamesDistinct(a) && NamesDistinct(b) && multiset(a) == multiset(b)
    ensures forall n :: n in LastNamed(a) ==> n in LastNamed(b) && LastNamed(b)[n] == LastNamed(a)[n]
  {
    forall n | n in LastNamed(a) ensures n in LastNamed(b) && LastNamed(b)[n] == LastNamed(a)[n] {
      var i := ShowsSomeOutput(a, n);
      OwnOutput(a, i);
      assert a[i] in multiset(a) && a[i] in multiset(b);
      var j :| 0 <= j < |b| && b[j] == a[i];
      OwnOutput(b, j);
    }
  }

  // ----- with one shared variable -----

  /** Every name shows some output of that name, and the last output shows under its own. */
  lemma {:induction false} NamesShown(outputs: seq<CheckOutput>)
    ensures forall n :: n in LastNamed(outputs) <==> Recorded(outputs, n)
    ensures forall n :: n in LastNamed(outputs) ==> LastNamed(outputs)[n].name == n
    ensures outputs != [] ==>
      var last := outputs[|outputs| - 1]; last.name in LastNamed(outputs) && LastNamed(outputs)[last.name] == last
  {
    if outputs == [] {
    } else {
      var init, last := outputs[..|outputs| - 1], outputs[|outputs| - 1];
      NamesShown(init);
      forall n ensures Recorded(outputs, n) <==> Recorded(init, n) || n == last.name {
        if n == last.name {
          assert outputs[|init|].name == n;
        }
        if Recorded(init, n) {
          var i :| 0 <= i < |init| && init[i].name == n;
          assert outputs[i].name == n;
        }
        if i :| 0 <= i < |outputs| && outputs[i].name == n && n != last.name {
          assert init[i].name == n;
        }
      }
    }
  }

  /**
    One shared variable keeps the names, but it shows what it should iff nothing was recorded, or all
    recorded outputs have one name and the loop received nothing after the last of them.
   */
  lemma SharedVariable(units: seq<WorkUnit>)
    ensures Shown(false, units).Keys == Shown(true, units).Keys
    ensures var outputs := Outputs(units);
            Shown(false, units) == Shown(true, units) <==>
            outputs == [] ||
            (outputs[|outputs| - 1] == units[|units| - 1].output &&
             forall i :: 0 <= i < |outputs| ==> outputs[i].name == outputs[|outputs| - 1].name)
  {
    var outputs := Outputs(units);
    NamesShown(outputs);
    if outputs != [] && Shown(false, units) == Shown(true, units) {
      var last := outputs[|outputs| - 1];
      assert Shown(false, units)[last.name] == FinalOutput(units);
      forall i | 0 <= i < |outputs| ensures outputs[i].name == last.name {
        assert Recorded(outputs, outputs[i].name) && outputs[i].name in LastNamed(outputs);
        assert Shown(false, units)[outputs[i].name] == FinalOutput(units);
      }
    }
  }

  /** So for differently named outputs and no conversion error it is right for at most one output. */
  lemma {:induction false} SharedVariableRightForOne(units: seq<WorkUnit>)
    requires Errors(units) == [] && NamesDistinct(Outputs(units))
    ensures Shown(false, units) == Shown(true, units) <==> |units| <= 1
  {
    AllConverted(units);
    SharedVariable(units);
    if |units| > 1 {
      assert Outputs(units)[0].name != Outputs(units)[|units| - 1].name;
    }
  }

  /** Of two differently named outputs, the first one's name shows the second. */
  lemma SharedVariableOfTwo(a: CheckOutput, b: CheckOutput)
    requires a.name != b.name
    ensures var units := [WorkUnit(a, None), WorkUnit(b, None)];
            && a.name in Shown(true, units) && Shown(true, units)[a.name] == a
            && a.name in Shown(false, units) && Shown(false, units)[a.name] == b
  {
    var first, second, none: seq<WorkUnit> := WorkUnit(a, None), WorkUnit(b, None), [];
    UnitsSnoc(none, first);
    UnitsSnoc([first], second);
    assert none + [first] == [first] && [first] + [second] == [first, second];
    var outputs := Outputs([first, second]);
    assert |outputs| == 2 && outputs[0] == a && outputs[1] == b;
    OwnOutput(outputs, 0);
  }

  /** A failing check and then a passing one of another name: the failure shows the other's result. */
  lemma SharedVariableWrong()
    ensures var a, b := NO_OUTPUT.(name := "a"), NO_OUTPUT.(name := "b", passed := true);
            var units := [WorkUnit(a, None), WorkUnit(b, None)];
            && "a" in Shown(true, units) && !Shown(true, units)["a"].passed
            && "a" in Shown(false, units) && Shown(false, units)["a"].passed
  {
    SharedVariableOfTwo(NO_OUTPUT.(name := "a"), NO_OUTPUT.(name := "b", passed := true));
  }

  lemma {:induction false} AllConverted(units: seq<WorkUnit>)
    requires Errors(units) == []
    ensures |Outputs(units)| == |units|
    ensures forall i :: 0 <= i < |units| ==> Outputs(units)[i] == units[i].output
  {
    if units == [] {
    } else {
      AllConverted(units[..|units| - 1]);
    }
  }
}
