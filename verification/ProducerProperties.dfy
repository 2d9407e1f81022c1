/** The producers side by side, and over histories of Populate calls. */
module ProducerProperties {
  import opened Common
  import opened Greenbay
  import opened Converter
  import opened GoTestText
  import opened Producers
  import opened ReportProducer

  function CodeOnes(items: seq<ResultsItem>): nat {
    if items == [] then 0
    else CodeOnes(items[..|items| - 1]) + (if items[|items| - 1].code == 1 then 1 else 0)
  }

  function FailItems(items: seq<ResultsItem>): nat {
    if items == [] then 0
    else FailItems(items[..|items| - 1]) + (if items[|items| - 1].status == "fail" then 1 else 0)
  }

  lemma {:induction false} CodeOnesOf(outputs: seq<CheckOutput>)
    ensures CodeOnes(DocumentOf(outputs).items) == |WithVerdict(outputs, false)|
    ensures FailItems(DocumentOf(outputs).items) == |WithVerdict(outputs, false)|
  {
    if outputs == [] {
    } else {
      var init, o := outputs[..|outputs| - 1], outputs[|outputs| - 1];
      assert outputs == init + [o];
      CodeOnesOf(init);
      DocumentSnoc(init, o);
      assert DocumentOf(outputs).items[..|init|] == DocumentOf(init).items;
    }
  }

  /** On one stream of checks, fresh producers of every format count the same failures. */
  lemma ProducersAgree(show: int -> string, perIteration: bool, json: bool, skip: bool, jobs: seq<QueuedJob>)
    requires AllChecks(jobs)
    ensures var outputs := Outputs(Units(false, jobs));
            var failures := |WithVerdict(outputs, false)|;
            && GoTestAfter(show, GoTestState(0, ""), skip, jobs).numFailed == failures
            && |GripAfter(json, GripState([], []), skip, jobs).failedMsgs| == failures
            && CodeOnes(DocumentOf(Outputs(Units(skip, jobs))).items) == failures
            && FailItems(DocumentOf(Outputs(Units(skip, jobs))).items) == failures
            && (DocumentOf(Outputs(Units(skip, jobs))).failed <==> failures > 0)
            && (ReportAfter(perIteration, ReportState(false, map[]), skip, jobs).hasErrors <==> failures > 0)
            && (failures > 0 <==> !AllPassed(jobs))
  {
    FailingUnits(skip, jobs);
    FailingUnits(false, jobs);
    QuietUnits(jobs);
    FilterTwice(Outputs(Units(false, jobs)), false);
    CodeOnesOf(Outputs(Units(skip, jobs)));
  }

  /** The jobs that are not passing checks, in order. */
  function NotPassing(jobs: seq<QueuedJob>): seq<QueuedJob> {
    if jobs == [] then []
    else
      var j := jobs[|jobs| - 1];
      NotPassing(jobs[..|jobs| - 1]) + (if Skipped(true, j) then [] else [j])
  }

  lemma {:induction false} QuietUnitsOf(jobs: seq<QueuedJob>)
    ensures Units(true, jobs) == Units(false, NotPassing(jobs))
  {
    if jobs == [] {
    } else {
      var init, j := jobs[..|jobs| - 1], jobs[|jobs| - 1];
      QuietUnitsOf(init);
      if Skipped(true, j) {
        assert NotPassing(jobs) == NotPassing(init) && Units(true, jobs) == Units(true, init);
      } else {
        UnitsConcat(false, NotPassing(init), [j]);
        assert Units(false, [j]) == [] + [Unit(j)];
      }
    }
  }

  /**
    Under SkipPassing every producer, from whatever state, does what it would do without it on the jobs
    that are not passing checks; and that leaves its verdict unchanged.
   */
  lemma QuietRefinement(show: int -> string, json: bool, perIteration: bool, jobs: seq<QueuedJob>,
                        gotest: GoTestState, grip: GripState, report: ReportState)
    ensures GoTestAfter(show, gotest, true, jobs) == GoTestAfter(show, gotest, false, NotPassing(jobs))
    ensures GripAfter(json, grip, true, jobs) == GripAfter(json, grip, false, NotPassing(jobs))
    ensures DocumentOf(Outputs(Units(true, jobs))) == DocumentOf(Outputs(Units(false, NotPassing(jobs))))
    ensures ReportAfter(perIteration, report, true, jobs) == ReportAfter(perIteration, report, false, NotPassing(jobs))
    ensures Outputs(Units(false, NotPassing(jobs))) == WithVerdict(Outputs(Units(false, jobs)), false)
    ensures GoTestAfter(show, gotest, true, jobs).numFailed == GoTestAfter(show, gotest, false, jobs).numFailed
    ensures GripAfter(json, grip, true, jobs).failedMsgs == GripAfter(json, grip, false, jobs).failedMsgs
    ensures DocumentOf(Outputs(Units(true, jobs))).failed == DocumentOf(Outputs(Units(false, jobs))).failed
    ensures ReportAfter(perIteration, report, true, jobs).hasErrors
         == ReportAfter(perIteration, report, false, jobs).hasErrors
  {
    QuietUnitsOf(jobs);
    QuietUnits(jobs);
    FilterTwice(Outputs(Units(false, jobs)), false);
  }

  // ----- histories of calls -----

  /** Some job is a check that did not pass. */
  predicate HasFailure(jobs: seq<QueuedJob>) {
    exists i :: 0 <= i < |jobs| && jobs[i].Check? && !jobs[i].output.passed
  }

  lemma HasFailureSnoc(jobs: seq<QueuedJob>, j: QueuedJob)
    ensures HasFailure(jobs + [j]) <==> HasFailure(jobs) || (j.Check? && !j.output.passed)
  {
    var all := jobs + [j];
    assert all[|jobs|] == j && forall i :: 0 <= i < |jobs| ==> all[i] == jobs[i];
  }

  lemma {:induction false} FailuresOfUnits(jobs: seq<QueuedJob>)
    ensures WithVerdict(Outputs(Units(false, jobs)), false) != [] <==> HasFailure(jobs)
  {
    if jobs == [] {
    } else {
      var init, j := jobs[..|jobs| - 1], jobs[|jobs| - 1];
      assert jobs == init + [j];
      FailuresOfUnits(init);
      HasFailureSnoc(init, j);
      LastUnit(false, jobs);
      if j.Check? {
        OutputsSnoc(Outputs(Units(false, init)), j.output, false);
      } else {
        assert Outputs(Units(false, jobs)) == Outputs(Units(false, init));
      }
    }
  }

  /** Whatever is skipped or cannot be converted, failing outputs come from failing checks. */
  lemma Failures(skip: bool, jobs: seq<QueuedJob>)
    ensures WithVerdict(Outputs(Units(skip, jobs)), false) != [] <==> HasFailure(jobs)
  {
    QuietUnits(jobs);
    FailuresOfUnits(jobs);
    FilterTwice(Outputs(Units(false, jobs)), false);
  }

  predicate SomeCallFailed(calls: seq<seq<QueuedJob>>) {
    exists k :: 0 <= k < |calls| && !AllPassed(calls[k])
  }

  predicate SomeCheckFailed(calls: seq<seq<QueuedJob>>) {
    exists k :: 0 <= k < |calls| && HasFailure(calls[k])
  }

  function GoTestHistory(show: int -> string, skip: bool, calls: seq<seq<QueuedJob>>): GoTestState {
    if calls == [] then GoTestState(0, "")
    else GoTestAfter(show, GoTestHistory(show, skip, calls[..|calls| - 1]), skip, calls[|calls| - 1])
  }

  function GripHistory(json: bool, skip: bool, calls: seq<seq<QueuedJob>>): GripState {
    if calls == [] then GripState([], [])
    else GripAfter(json, GripHistory(json, skip, calls[..|calls| - 1]), skip, calls[|calls| - 1])
  }

  function ReportHistory(perIteration: bool, skip: bool, calls: seq<seq<QueuedJob>>): ReportState {
    if calls == [] then ReportState(false, map[])
    else ReportAfter(perIteration, ReportHistory(perIteration, skip, calls[..|calls| - 1]), skip, calls[|calls| - 1])
  }

  /** The outputs of all calls, one call after the other. */
  function AllOutputs(skip: bool, calls: seq<seq<QueuedJob>>): seq<CheckOutput> {
    if calls == [] then []
    else AllOutputs(skip, calls[..|calls| - 1]) + Outputs(Units(skip, calls[|calls| - 1]))
  }

  lemma {:induction false} FilterConcat(a: seq<CheckOutput>, b: seq<CheckOutput>, passed: bool)
    ensures WithVerdict(a + b, passed) == WithVerdict(a, passed) + WithVerdict(b, passed)
  {
    if b == [] {
      assert a + b == a;
    } else {
      assert (a + b)[..|a + b| - 1] == a + b[..|b| - 1];
      FilterConcat(a, b[..|b| - 1], passed);
    }
  }

  /** Call k is the last one whose jobs are all checks. */
  ghost predicate LastConverted(calls: seq<seq<QueuedJob>>, k: int) {
    0 <= k < |calls| && AllChecks(calls[k]) && forall j :: k < j < |calls| ==> !AllChecks(calls[j])
  }

  lemma {:induction false} GoTestKeepsText(show: int -> string, skip: bool, calls: seq<seq<QueuedJob>>)
    ensures GoTestHistory(show, skip, calls).buf == TextOf(show, AllOutputs(skip, calls))
  {
    if calls == [] {
    } else {
      var init, last := calls[..|calls| - 1], calls[|calls| - 1];
      GoTestKeepsText(show, skip, init);
      TextOfConcat(show, AllOutputs(skip, init), Outputs(Units(skip, last)));
    }
  }

  /** A call with a job that is no check leaves the count alone; any other call sets it. */
  lemma GoTestStep(show: int -> string, st: GoTestState, skip: bool, jobs: seq<QueuedJob>)
    ensures !AllChecks(jobs) ==> GoTestAfter(show, st, skip, jobs).numFailed == st.numFailed
    ensures AllChecks(jobs) ==> (GoTestAfter(show, st, skip, jobs).numFailed > 0 <==> HasFailure(jobs))
  {
    FailingUnits(skip, jobs);
    Failures(skip, jobs);
  }

  lemma LastConvertedBefore(calls: seq<seq<QueuedJob>>, k: int)
    requires LastConverted(calls, k) && k < |calls| - 1
    ensures LastConverted(calls[..|calls| - 1], k) && !AllChecks(calls[|calls| - 1])
  {
    var init := calls[..|calls| - 1];
    assert forall j :: 0 <= j < |init| ==> init[j] == calls[j];
  }

  lemma {:induction false} GoTestCount(show: int -> string, skip: bool, calls: seq<seq<QueuedJob>>, k: int)
    requires LastConverted(calls, k)
    ensures GoTestHistory(show, skip, calls).numFailed > 0 <==> HasFailure(calls[k])
  {
    var n := |calls| - 1;
    GoTestStep(show, GoTestHistory(show, skip, calls[..n]), skip, calls[n]);
    if k == n {
    } else {
      LastConvertedBefore(calls, k);
      GoTestCount(show, skip, calls[..n], k);
    }
  }

  lemma {:induction false} GoTestNoCount(show: int -> string, skip: bool, calls: seq<seq<QueuedJob>>)
    requires forall k :: 0 <= k < |calls| ==> !AllChecks(calls[k])
    ensures GoTestHistory(show, skip, calls).numFailed == 0
  {
    if calls == [] {
    } else {
      var n := |calls| - 1;
      GoTestStep(show, GoTestHistory(show, skip, calls[..n]), skip, calls[n]);
      GoTestNoCount(show, skip, calls[..n]);
    }
  }

  /**
    Over any calls gotest keeps all text, while its verdict is that of the last call whose jobs were all
    checks, and no failure if there was none.
   */
  lemma GoTestOverCalls(show: int -> string, skip: bool, calls: seq<seq<QueuedJob>>)
    ensures GoTestHistory(show, skip, calls).buf == TextOf(show, AllOutputs(skip, calls))
    ensures GoTestHistory(show, skip, calls).numFailed > 0 <==>
      exists k :: LastConverted(calls, k) && HasFailure(calls[k])
    ensures forall k :: LastConverted(calls, k) ==>
      (GoTestHistory(show, skip, calls).numFailed > 0 <==> !AllPassed(calls[k]))
  {
    GoTestKeepsText(show, skip, calls);
    forall k | LastConverted(calls, k)
      ensures GoTestHistory(show, skip, calls).numFailed > 0 <==> HasFailure(calls[k])
      ensures HasFailure(calls[k]) <==> !AllPassed(calls[k])
    {
      GoTestCount(show, skip, calls, k);
    }
    if forall k :: 0 <= k < |calls| ==> !AllChecks(calls[k]) {
      GoTestNoCount(show, skip, calls);
    } else {
      var k := FindLastConverted(calls);
    }
  }

  lemma {:induction false} FindLastConverted(calls: seq<seq<QueuedJob>>) returns (k: nat)
    requires exists i :: 0 <= i < |calls| && AllChecks(calls[i])
    ensures LastConverted(calls, k)
  {
    k := |calls| - 1;
    if !AllChecks(calls[k]) {
      var i :| 0 <= i < |calls| && AllChecks(calls[i]);
      assert AllChecks(calls[..k][i]);
      var before := FindLastConverted(calls[..k]);
      assert AllChecks(calls[before]);
      assert forall j :: before < j < k ==> calls[..k][j] == calls[j];
      k := before;
    }
  }

  /**
    So the verdict is that of the last call iff all jobs of that call are checks, or the one it is left
    from happens to agree.
   */
  lemma GoTestVerdictOfLastCall(show: int -> string, skip: bool, calls: seq<seq<QueuedJob>>)
    requires calls != []
    ensures var last := calls[|calls| - 1];
            (GoTestHistory(show, skip, calls).numFailed > 0 <==> HasFailure(last)) <==>
            AllChecks(last) || (HasFailure(last) <==> exists k :: LastConverted(calls, k) && HasFailure(calls[k]))
  {
    GoTestOverCalls(show, skip, calls);
    if AllChecks(calls[|calls| - 1]) {
      assert LastConverted(calls, |calls| - 1);
    }
  }

  /** A failing check and then a job that is no check: the verdict is stale. */
  lemma StaleFailure(show: int -> string, skip: bool)
    ensures var calls := [[Check(NO_OUTPUT)], [Plain("job")]];
            GoTestHistory(show, skip, calls).numFailed > 0 && !HasFailure(calls[1])
  {
    var failing, plain := [Check(NO_OUTPUT)], [Plain("job")];
    assert failing[0].Check? && plain[0].Plain?;
    assert HasFailure(failing) && !AllChecks(plain);
    GoTestCount(show, skip, [failing, plain], 0);
  }

  /** A passing check and then a failing one next to a job that is no check: the failure is not counted. */
  lemma MissedFailure(show: int -> string, skip: bool)
    ensures var calls := [[Check(NO_OUTPUT.(passed := true))], [Plain("job"), Check(NO_OUTPUT)]];
            GoTestHistory(show, skip, calls).numFailed == 0 && HasFailure(calls[1])
  {
    var passing, mixed := [Check(NO_OUTPUT.(passed := true))], [Plain("job"), Check(NO_OUTPUT)];
    assert mixed[0].Plain? && mixed[1].Check?;
    assert HasFailure(mixed) && !HasFailure(passing) && !AllChecks(mixed);
    GoTestCount(show, skip, [passing, mixed], 0);
  }

  /** The document after some calls; there is none before the first. */
  function ResultHistory(skip: bool, calls: seq<seq<QueuedJob>>): Option<DocumentState> {
    if calls == [] then None else Some(DocumentOf(Outputs(Units(skip, calls[|calls| - 1]))))
  }

  /** result forgets everything but the last call, whatever its jobs. */
  lemma ResultOverCalls(skip: bool, calls: seq<seq<QueuedJob>>)
    requires calls != []
    ensures ResultHistory(skip, calls).value.failed <==> HasFailure(calls[|calls| - 1])
    ensures CodeOnes(ResultHistory(skip, calls).value.items) > 0 <==> HasFailure(calls[|calls| - 1])
  {
    Failures(skip, calls[|calls| - 1]);
    CodeOnesOf(Outputs(Units(skip, calls[|calls| - 1])));
  }

  lemma LoggedConcat(json: bool, st: GripState, a: seq<CheckOutput>, b: seq<CheckOutput>)
    ensures Logged(json, Logged(json, st, a), b) == Logged(json, st, a + b)
  {
    FilterConcat(a, b, true);
    FilterConcat(a, b, false);
    MessagesConcat(json, st.passedMsgs, WithVerdict(a, true), WithVerdict(b, true));
    MessagesConcat(json, st.failedMsgs, WithVerdict(a, false), WithVerdict(b, false));
  }

  lemma MessagesConcat(json: bool, before: seq<Message>, a: seq<CheckOutput>, b: seq<CheckOutput>)
    ensures before + Messages(json, a) + Messages(json, b) == before + Messages(json, a + b)
  {
    assert Messages(json, a + b) == Messages(json, a) + Messages(json, b);
  }

  lemma LastCall(calls: seq<seq<QueuedJob>>)
    requires calls != []
    ensures SomeCallFailed(calls) <==> SomeCallFailed(calls[..|calls| - 1]) || !AllPassed(calls[|calls| - 1])
    ensures SomeCheckFailed(calls) <==> SomeCheckFailed(calls[..|calls| - 1]) || HasFailure(calls[|calls| - 1])
  {
    var init := calls[..|calls| - 1];
    if k :| 0 <= k < |init| && !AllPassed(init[k]) {
      assert !AllPassed(calls[k]);
    }
    if k :| 0 <= k < |init| && HasFailure(init[k]) {
      assert HasFailure(calls[k]);
    }
  }

  /** log and json remember every message. */
  lemma {:induction false} GripOverCalls(json: bool, skip: bool, calls: seq<seq<QueuedJob>>)
    ensures GripHistory(json, skip, calls) == Logged(json, GripState([], []), AllOutputs(skip, calls))
  {
    if calls == [] {
    } else {
      var init, last := calls[..|calls| - 1], calls[|calls| - 1];
      GripOverCalls(json, skip, init);
      LoggedConcat(json, GripState([], []), AllOutputs(skip, init), Outputs(Units(skip, last)));
    }
  }

  /** So they fail once any call had a failing check. */
  lemma {:induction false} GripFailsForAnyCall(json: bool, skip: bool, calls: seq<seq<QueuedJob>>)
    ensures GripHistory(json, skip, calls).failedMsgs != [] <==> SomeCheckFailed(calls)
  {
    if calls == [] {
    } else {
      GripFailsForAnyCall(json, skip, calls[..|calls| - 1]);
      Failures(skip, calls[|calls| - 1]);
      LastCall(calls);
    }
  }

  /** report remembers that something failed or could not be converted, but shows only the last call. */
  lemma {:induction false} ReportOverCalls(perIteration: bool, skip: bool, calls: seq<seq<QueuedJob>>)
    ensures ReportHistory(perIteration, skip, calls).hasErrors <==> SomeCallFailed(calls)
    ensures calls != [] ==>
      ReportHistory(perIteration, skip, calls).results == Shown(perIteration, Units(skip, calls[|calls| - 1]))
  {
    if calls == [] {
    } else {
      ReportOverCalls(perIteration, skip, calls[..|calls| - 1]);
      FailingUnits(skip, calls[|calls| - 1]);
      LastCall(calls);
    }
  }

  // ----- the producers themselves over some calls -----

  method GoTestCalls(p: GoTest, calls: seq<seq<QueuedJob>>)
    requires p.State() == GoTestState(0, "")
    modifies p`numFailed, p`buf
    ensures p.State() == GoTestHistory(p.show, p.skipPassing, calls)
  {
    for k := 0 to |calls|
      invariant p.State() == GoTestHistory(p.show, p.skipPassing, calls[..k])
    {
      assert calls[..k + 1][..k] == calls[..k];
      var _ := p.Populate(calls[k]);
    }
    assert calls[..|calls|] == calls;
  }

  method ResultCalls(p: Results, calls: seq<seq<QueuedJob>>)
    requires p.out == null
    modifies p`out
    ensures ResultHistory(p.skipPassing, calls) == if p.out == null then None else Some(p.out.State())
  {
    for k := 0 to |calls|
      invariant ResultHistory(p.skipPassing, calls[..k]) == if p.out == null then None else Some(p.out.State())
    {
      var _ := p.Populate(calls[k]);
    }
    assert calls[..|calls|] == calls;
  }

  method GripCalls(p: GripOutput, calls: seq<seq<QueuedJob>>)
    requires p.State() == GripState([], [])
    modifies p`useJSONLoggers, p`passedMsgs, p`failedMsgs
    ensures p.State() == GripHistory(p.json, p.skipPassing, calls)
  {
    for k := 0 to |calls|
      invariant p.State() == GripHistory(p.json, p.skipPassing, calls[..k])
    {
      assert calls[..k + 1][..k] == calls[..k];
      var _ := p.Populate(calls[k]);
    }
    assert calls[..|calls|] == calls;
  }

  method ReportCalls(p: Report, calls: seq<seq<QueuedJob>>, perIteration: bool)
    requires p.State() == ReportState(false, map[])
    modifies p`hasErrors, p`results
    ensures p.State() == ReportHistory(perIteration, p.skipPassing, calls)
  {
    for k := 0 to |calls|
      invariant p.State() == ReportHistory(perIteration, p.skipPassing, calls[..k])
    {
      assert calls[..k + 1][..k] == calls[..k];
      var _ := p.Populate(calls[k], perIteration);
    }
    assert calls[..|calls|] == calls;
  }
}
