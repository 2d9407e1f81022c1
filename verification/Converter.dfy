/** From finished jobs to check outputs: a filter-map, and the goroutine that computes it. */
module Converter {
  import opened Common
  import opened Greenbay

  /** An amboy job: a check, or a job that does not implement the Checker interface. */
  datatype QueuedJob = Check(output: CheckOutput) | Plain(id: string)

  datatype WorkUnit = WorkUnit(output: CheckOutput, err: Option<string>)

  function Convert(j: QueuedJob): Result<CheckOutput, string> {
    match j
    case Check(o) => Ok(o)
    case Plain(id) => Err(id)
  }

  predicate Skipped(skipPassing: bool, j: QueuedJob) {
    skipPassing && j.Check? && j.output.passed
  }

  function Unit(j: QueuedJob): WorkUnit {
    match Convert(j)
    case Ok(o) => WorkUnit(o, None)
    case Err(id) => WorkUnit(NO_OUTPUT, Some(id))
  }

  /** The units made of the jobs, in order. */
  function Units(skipPassing: bool, jobs: seq<QueuedJob>): seq<WorkUnit> {
    if jobs == [] then []
    else
      var j := jobs[|jobs| - 1];
      Units(skipPassing, jobs[..|jobs| - 1]) + (if Skipped(skipPassing, j) then [] else [Unit(j)])
  }

  /** The outputs among the units, without the conversion errors. */
  function Outputs(units: seq<WorkUnit>): seq<CheckOutput> {
    if units == [] then []
    else
      var u := units[|units| - 1];
      Outputs(units[..|units| - 1]) + (if u.err.None? then [u.output] else [])
  }

  /** The conversion errors among the units. */
  function Errors(units: seq<WorkUnit>): seq<string> {
    if units == [] then []
    else
      var u := units[|units| - 1];
      Errors(units[..|units| - 1]) + (if u.err.Some? then [u.err.value] else [])
  }

  /** The outputs whose verdict is the given one. */
  function WithVerdict(outputs: seq<CheckOutput>, passed: bool): seq<CheckOutput> {
    if outputs == [] then []
    else
      var o := outputs[|outputs| - 1];
      WithVerdict(outputs[..|outputs| - 1], passed) + (if o.passed == passed then [o] else [])
  }

  function SkippedCount(skipPassing: bool, jobs: seq<QueuedJob>): nat {
    if jobs == [] then 0
    else SkippedCount(skipPassing, jobs[..|jobs| - 1]) + (if Skipped(skipPassing, jobs[|jobs| - 1]) then 1 else 0)
  }

  lemma {:induction false} UnitsConcat(skipPassing: bool, a: seq<QueuedJob>, b: seq<QueuedJob>)
    ensures Units(skipPassing, a + b) == Units(skipPassing, a) + Units(skipPassing, b)
  {
    if b == [] {
      assert a + b == a;
    } else {
      assert (a + b)[..|a + b| - 1] == a + b[..|b| - 1];
      UnitsConcat(skipPassing, a, b[..|b| - 1]);
    }
  }

  /** Job by job: a check gives its output unless it passed and is skipped, any other job gives its error. */
  lemma UnitsJobByJob(skipPassing: bool, a: seq<QueuedJob>, b: seq<QueuedJob>, o: CheckOutput, id: string)
    ensures Units(skipPassing, []) == []
    ensures Units(skipPassing, a + b) == Units(skipPassing, a) + Units(skipPassing, b)
    ensures Units(skipPassing, [Check(o)]) == if skipPassing && o.passed then [] else [WorkUnit(o, None)]
    ensures Units(skipPassing, [Plain(id)])
         == [WorkUnit(CheckOutput(false, false, "", "", "", "", [], 0, 0), Some(id))]
  {
    UnitsConcat(skipPassing, a, b);
    assert [Check(o)][..0] == [] && [Plain(id)][..0] == [];
  }

  /** Unit by unit: its output or its error. */
  lemma UnitByUnit(units: seq<WorkUnit>, u: WorkUnit)
    ensures Outputs([]) == [] && Errors([]) == []
    ensures u.err.None? ==> Outputs(units + [u]) == Outputs(units) + [u.output] && Errors(units + [u]) == Errors(units)
    ensures u.err.Some? ==>
      Outputs(units + [u]) == Outputs(units) && Errors(units + [u]) == Errors(units) + [u.err.value]
  {
    UnitsSnoc(units, u);
  }

  /** Output by output: it is kept iff it has the verdict. */
  lemma VerdictByOutput(outputs: seq<CheckOutput>, o: CheckOutput, passed: bool)
    ensures WithVerdict([], passed) == []
    ensures o.passed == passed ==> WithVerdict(outputs + [o], passed) == WithVerdict(outputs, passed) + [o]
    ensures o.passed != passed ==> WithVerdict(outputs + [o], passed) == WithVerdict(outputs, passed)
  {
    OutputsSnoc(outputs, o, passed);
  }

  /** Every job becomes one unit or is a passing check that was skipped. */
  lemma {:induction false} UnitsAccount(skipPassing: bool, jobs: seq<QueuedJob>)
    ensures |Units(skipPassing, jobs)| + SkippedCount(skipPassing, jobs) == |jobs|
    ensures !skipPassing ==> SkippedCount(skipPassing, jobs) == 0
  {
    if jobs == [] {
    } else {
      UnitsAccount(skipPassing, jobs[..|jobs| - 1]);
    }
  }

  lemma UnitsSnoc(units: seq<WorkUnit>, u: WorkUnit)
    ensures Outputs(units + [u]) == Outputs(units) + (if u.err.None? then [u.output] else [])
    ensures Errors(units + [u]) == Errors(units) + (if u.err.Some? then [u.err.value] else [])
  {
    assert (units + [u])[..|units|] == units;
  }

  lemma OutputsSnoc(outputs: seq<CheckOutput>, o: CheckOutput, passed: bool)
    ensures WithVerdict(outputs + [o], passed)
         == WithVerdict(outputs, passed) + (if o.passed == passed then [o] else [])
  {
    assert (outputs + [o])[..|outputs|] == outputs;
  }

  /** What the last job adds. */
  lemma LastUnit(skipPassing: bool, jobs: seq<QueuedJob>)
    requires jobs != []
    ensures var init, j := Units(skipPassing, jobs[..|jobs| - 1]), jobs[|jobs| - 1];
            && Outputs(Units(skipPassing, jobs))
               == Outputs(init) + (if j.Check? && !Skipped(skipPassing, j) then [j.output] else [])
            && Errors(Units(skipPassing, jobs)) == Errors(init) + (if j.Plain? then [j.id] else [])
  {
    var init, j := Units(skipPassing, jobs[..|jobs| - 1]), jobs[|jobs| - 1];
    UnitsSnoc(init, Unit(j));
    assert init + [] == init;
  }

  /** Skipping leaves every conversion error and exactly the failing outputs, in order. */
  lemma {:induction false} QuietUnits(jobs: seq<QueuedJob>)
    ensures Errors(Units(true, jobs)) == Errors(Units(false, jobs))
    ensures Outputs(Units(true, jobs)) == WithVerdict(Outputs(Units(false, jobs)), false)
  {
    if jobs == [] {
    } else {
      var init, j := jobs[..|jobs| - 1], jobs[|jobs| - 1];
      QuietUnits(init);
      LastUnit(true, jobs);
      LastUnit(false, jobs);
      if j.Check? {
        OutputsSnoc(Outputs(Units(false, init)), j.output, false);
      } else {
        assert Outputs(Units(false, jobs)) == Outputs(Units(false, init));
      }
    }
  }

  lemma {:induction false} VerdictsPartition(outputs: seq<CheckOutput>)
    ensures |WithVerdict(outputs, true)| + |WithVerdict(outputs, false)| == |outputs|
    ensures WithVerdict(outputs, false) == [] <==> forall i :: 0 <= i < |outputs| ==> outputs[i].passed
  {
    if outputs == [] {
    } else {
      VerdictsPartition(outputs[..|outputs| - 1]);
    }
  }

  lemma {:induction false} FilterTwice(outputs: seq<CheckOutput>, passed: bool)
    ensures WithVerdict(WithVerdict(outputs, passed), passed) == WithVerdict(outputs, passed)
  {
    if outputs == [] {
    } else {
      var init, o := outputs[..|outputs| - 1], outputs[|outputs| - 1];
      FilterTwice(init, passed);
      OutputsSnoc(WithVerdict(init, passed), o, passed);
      assert WithVerdict(init, passed) + [] == WithVerdict(init, passed);
    }
  }

  /** All jobs are checks. */
  predicate AllChecks(jobs: seq<QueuedJob>) {
    forall i :: 0 <= i < |jobs| ==> jobs[i].Check?
  }

  predicate AllPassed(jobs: seq<QueuedJob>) {
    forall i :: 0 <= i < |jobs| ==> jobs[i].Check? && jobs[i].output.passed
  }

  lemma {:induction false} ErrorsOfChecks(jobs: seq<QueuedJob>)
    ensures Errors(Units(false, jobs)) == [] <==> AllChecks(jobs)
  {
    if jobs == [] {
    } else {
      ErrorsOfChecks(jobs[..|jobs| - 1]);
      LastUnit(false, jobs);
      assert jobs == jobs[..|jobs| - 1] + [jobs[|jobs| - 1]];
    }
  }

  lemma {:induction false} OutputsOfChecks(jobs: seq<QueuedJob>)
    requires AllChecks(jobs)
    ensures Outputs(Units(false, jobs)) == seq(|jobs|, i requires 0 <= i < |jobs| => jobs[i].output)
  {
    if jobs == [] {
    } else {
      OutputsOfChecks(jobs[..|jobs| - 1]);
      LastUnit(false, jobs);
    }
  }

  lemma AllOutputsPassed(jobs: seq<QueuedJob>, outputs: seq<CheckOutput>)
    requires AllChecks(jobs) && outputs == seq(|jobs|, i requires 0 <= i < |jobs| => jobs[i].output)
    ensures WithVerdict(outputs, false) == [] <==> AllPassed(jobs)
  {
    VerdictsPartition(outputs);
    assert forall i :: 0 <= i < |jobs| ==> outputs[i] == jobs[i].output;
  }

  /** Whatever is skipped: conversion errors are exactly the jobs that are not checks, and no failing
      output is recorded exactly when all jobs are passing checks. */
  lemma FailingUnits(skipPassing: bool, jobs: seq<QueuedJob>)
    ensures Errors(Units(skipPassing, jobs)) == [] <==> AllChecks(jobs)
    ensures AllChecks(jobs) ==>
      (WithVerdict(Outputs(Units(skipPassing, jobs)), false) == [] <==> AllPassed(jobs))
  {
    var outputs := Outputs(Units(false, jobs));
    QuietUnits(jobs);
    ErrorsOfChecks(jobs);
    FilterTwice(outputs, false);
    if AllChecks(jobs) {
      OutputsOfChecks(jobs);
      AllOutputsPassed(jobs, outputs);
    }
  }

  /** The goroutine's loop, run to the end of its input. */
  method JobsToCheck(skipPassing: bool, jobs: seq<QueuedJob>) returns (output: seq<WorkUnit>)
    ensures output == Units(skipPassing, jobs)
  {
    output := [];
    for i := 0 to |jobs|
      invariant output == Units(skipPassing, jobs[..i])
    {
      assert jobs[..i + 1][..i] == jobs[..i];
      var c := Convert(jobs[i]);
      if c.Err? {
        output := output + [WorkUnit(NO_OUTPUT, Some(c.error))];
        continue;
      }
      var o := c.value;
      if skipPassing && o.passed {
        continue;
      }
      output := output + [WorkUnit(o, None)];
    }
    assert jobs[..|jobs|] == jobs;
  }
}
