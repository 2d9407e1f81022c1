/** The five results producers.  For each, a function says what one Populate call makes of its state. */
module Producers {
  import opened Common
  import opened Greenbay
  import opened Converter
  import opened GoTestText

  // ----- gotest -----

  datatype GoTestState = GoTestState(numFailed: nat, buf: string)

  /** The text grows even when a job cannot be converted, but the count is then left alone. */
  function GoTestAfter(show: int -> string, st: GoTestState, skip: bool, jobs: seq<QueuedJob>): GoTestState {
    var units := Units(skip, jobs);
    GoTestState(if Errors(units) == [] then |WithVerdict(Outputs(units), false)| else st.numFailed,
                st.buf + TextOf(show, Outputs(units)))
  }

  class GoTest {
    const show: int -> string
    var skipPassing: bool
    var numFailed: nat
    var buf: string

    function State(): GoTestState
      reads this
    {
      GoTestState(numFailed, buf)
    }

    constructor (show: int -> string)
      ensures State() == GoTestState(0, "") && !skipPassing && this.show == show
    {
      this.show := show;
      skipPassing, numFailed, buf := false, 0, "";
    }

    method SkipPassing()
      modifies this`skipPassing
      ensures skipPassing
    {
      skipPassing := true;
    }

    method Populate(jobs: seq<QueuedJob>) returns (errs: seq<string>)
      modifies this`numFailed, this`buf
      ensures State() == GoTestAfter(show, old(State()), skipPassing, jobs)
      ensures errs == Errors(Units(skipPassing, jobs))
    {
      var units := JobsToCheck(skipPassing, jobs);
      var failed;
      failed, errs := ProduceResults(units);
      if errs == [] {
        numFailed := failed;
      }
    }

    method ProduceResults(checks: seq<WorkUnit>) returns (failedCount: nat, errs: seq<string>)
      modifies this`buf
      ensures buf == old(buf) + TextOf(show, Outputs(checks))
      ensures failedCount == |WithVerdict(Outputs(checks), false)| && errs == Errors(checks)
    {
      failedCount, errs := 0, [];
      assert buf == buf + "";
      for i := 0 to |checks|
        invariant buf == old(buf) + TextOf(show, Outputs(checks[..i]))
        invariant failedCount == |WithVerdict(Outputs(checks[..i]), false)| && errs == Errors(checks[..i])
      {
        var wu := checks[i];
        ghost var done := Outputs(checks[..i]);
        assert checks[..i + 1] == checks[..i] + [wu];
        UnitsSnoc(checks[..i], wu);
        if wu.err.Some? {
          errs := errs + [wu.err.value];
          assert Outputs(checks[..i + 1]) == done;
          continue;
        }
        OutputsSnoc(done, wu.output, false);
        TextSnoc(show, done, wu.output);
        ConcatAssoc(old(buf), TextOf(show, done), Text(show, wu.output));
        var passed := PrintTestResult(wu.output);
        if !passed {
          failedCount := failedCount + 1;
        }
      }
      assert checks[..|checks|] == checks;
    }

    method PrintTestResult(check: CheckOutput) returns (passed: bool)
      modifies this`buf
      ensures buf == old(buf) + Text(show, check) && passed == check.passed
      ensures buf == old(buf)
        + (("=== RUN " + check.name + "\n")
           + (if check.message == "" then "" else "    message: " + check.message + "\n")
           + (if check.error == "" then "" else "    error: " + check.error + "\n")
           + ((if check.passed then "--- PASS: " else "--- FAIL: ")
              + check.name + " (" + show(check.end - check.start) + ")" + "\n"))
    {
      var start := buf;
      var written: string := RUN_TAG + check.name + "\n";
      ghost var run := written;
      if check.message != "" {
        written := written + (MESSAGE_TAG + check.message + "\n");
      }
      assert written == run + Field(MESSAGE_TAG, check.message);
      ghost var head := written;
      if check.error != "" {
        written := written + (ERROR_TAG + check.error + "\n");
      }
      assert written == head + Field(ERROR_TAG, check.error);
      var dur := show(check.end - check.start);
      if check.passed {
        written := written + (PASS_TAG + check.name + " (" + dur + ")" + "\n");
      } else {
        written := written + (FAIL_TAG + check.name + " (" + dur + ")" + "\n");
      }
      buf := start + written;
      passed := check.passed;
    }

    method Print() returns (ok: bool)
      ensures ok <==> numFailed == 0
    {
      ok := !(numFailed > 0);
    }

    method ToFile(writable: bool) returns (ok: bool)
      ensures ok <==> writable && numFailed == 0
    {
      ok := writable && !(numFailed > 0);
    }
  }

  lemma TextSnoc(show: int -> string, outputs: seq<CheckOutput>, o: CheckOutput)
    ensures TextOf(show, outputs + [o]) == TextOf(show, outputs) + Text(show, o)
  {
    assert (outputs + [o])[..|outputs|] == outputs;
  }

  // ----- log and json -----

  datatype Message = Formatted(output: CheckOutput) | Structured(output: CheckOutput)

  datatype GripState = GripState(passedMsgs: seq<Message>, failedMsgs: seq<Message>)

  function MessageOf(json: bool, o: CheckOutput): Message {
    if json then Structured(o) else Formatted(o)
  }

  function Messages(json: bool, outputs: seq<CheckOutput>): seq<Message> {
    seq(|outputs|, i requires 0 <= i < |outputs| => MessageOf(json, outputs[i]))
  }

  /** Messages pile up over all calls. */
  function GripAfter(json: bool, st: GripState, skip: bool, jobs: seq<QueuedJob>): GripState {
    Logged(json, st, Outputs(Units(skip, jobs)))
  }

  function Logged(json: bool, st: GripState, outputs: seq<CheckOutput>): GripState {
    GripState(st.passedMsgs + Messages(json, WithVerdict(outputs, true)),
              st.failedMsgs + Messages(json, WithVerdict(outputs, false)))
  }

  lemma VerdictMessagesSnoc(json: bool, outputs: seq<CheckOutput>, o: CheckOutput, passed: bool)
    ensures Messages(json, WithVerdict(outputs + [o], passed))
         == Messages(json, WithVerdict(outputs, passed)) + (if o.passed == passed then [MessageOf(json, o)] else [])
  {
    OutputsSnoc(outputs, o, passed);
    var before := WithVerdict(outputs, passed);
    if o.passed == passed {
      MessagesSnoc(json, before, o);
    } else {
      assert before + [] == before;
    }
  }

  lemma LoggedSnoc(json: bool, st: GripState, outputs: seq<CheckOutput>, o: CheckOutput)
    ensures var was, now := Logged(json, st, outputs), Logged(json, st, outputs + [o]);
            now == if o.passed then was.(passedMsgs := was.passedMsgs + [MessageOf(json, o)])
                   else was.(failedMsgs := was.failedMsgs + [MessageOf(json, o)])
  {
    VerdictMessagesSnoc(json, outputs, o, true);
    VerdictMessagesSnoc(json, outputs, o, false);
  }

  /** The first i units made st of start, and left these errors. */
  ghost predicate LoggedTo(json: bool, start: GripState, units: seq<WorkUnit>, i: nat, st: GripState, errs: seq<string>) {
    i <= |units| && st == Logged(json, start, Outputs(units[..i])) && errs == Errors(units[..i])
  }

  lemma LoggedNext(json: bool, start: GripState, units: seq<WorkUnit>, i: nat, st: GripState, errs: seq<string>,
                   now: GripState, more: seq<string>)
    requires i < |units| && LoggedTo(json, start, units, i, st, errs)
    requires units[i].err.Some? ==> now == st && more == errs + [units[i].err.value]
    requires units[i].err.None? ==> more == errs
    requires units[i].err.None? ==>
      var o := units[i].output;
      now == if o.passed then st.(passedMsgs := st.passedMsgs + [MessageOf(json, o)])
             else st.(failedMsgs := st.failedMsgs + [MessageOf(json, o)])
    ensures LoggedTo(json, start, units, i + 1, now, more)
  {
    assert units[..i + 1] == units[..i] + [units[i]];
    UnitByUnit(units[..i], units[i]);
    LoggedSnoc(json, start, Outputs(units[..i]), units[i].output);
  }

  /** The messages of each verdict: those from before, then one per output of that verdict, in order. */
  lemma LoggedShows(json: bool, st: GripState, outputs: seq<CheckOutput>)
    ensures var now := Logged(json, st, outputs);
            var passed, failed := WithVerdict(outputs, true), WithVerdict(outputs, false);
            && |now.passedMsgs| == |st.passedMsgs| + |passed| && |now.failedMsgs| == |st.failedMsgs| + |failed|
            && st.passedMsgs <= now.passedMsgs && st.failedMsgs <= now.failedMsgs
            && (forall k :: 0 <= k < |passed| ==>
                  now.passedMsgs[|st.passedMsgs| + k] == if json then Structured(passed[k]) else Formatted(passed[k]))
            && (forall k :: 0 <= k < |failed| ==>
                  now.failedMsgs[|st.failedMsgs| + k] == if json then Structured(failed[k]) else Formatted(failed[k]))
  {
  }

  /** What GripOutput and JSONResults share; the flag tells them apart. */
  class GripOutput {
    const json: bool
    var useJSONLoggers: bool
    var skipPassing: bool
    var passedMsgs: seq<Message>
    var failedMsgs: seq<Message>

    function State(): GripState
      reads this
    {
      GripState(passedMsgs, failedMsgs)
    }

    constructor (json: bool)
      ensures State() == GripState([], []) && !skipPassing && this.json == json
    {
      this.json := json;
      useJSONLoggers, skipPassing, passedMsgs, failedMsgs := false, false, [], [];
    }

    method SkipPassing()
      modifies this`skipPassing
      ensures skipPassing
    {
      skipPassing := true;
    }

    method Populate(jobs: seq<QueuedJob>) returns (errs: seq<string>)
      modifies this`useJSONLoggers, this`passedMsgs, this`failedMsgs
      ensures State() == GripAfter(json, old(State()), skipPassing, jobs) && useJSONLoggers == json
      ensures errs == Errors(Units(skipPassing, jobs))
    {
      useJSONLoggers := json;
      errs := [];
      var units := JobsToCheck(skipPassing, jobs);
      ghost var start := State();
      assert start == Logged(json, start, []);
      for i := 0 to |units|
        invariant LoggedTo(json, start, units, i, State(), errs) && useJSONLoggers == json
      {
        ghost var before, errsBefore := State(), errs;
        if units[i].err.Some? {
          errs := errs + [units[i].err.value];
        } else {
          Add(units[i].output);
        }
        LoggedNext(json, start, units, i, before, errsBefore, State(), errs);
      }
      assert units[..|units|] == units;
    }

    /** The loop body for an output. */
    method Add(o: CheckOutput)
      modifies this`passedMsgs, this`failedMsgs
      ensures passedMsgs == if o.passed then old(passedMsgs) + [MessageOf(json, o)] else old(passedMsgs)
      ensures failedMsgs == if o.passed then old(failedMsgs) else old(failedMsgs) + [MessageOf(json, o)]
    {
      var msg := if json then Structured(o) else Formatted(o);
      if o.passed {
        passedMsgs := passedMsgs + [msg];
      } else {
        failedMsgs := failedMsgs + [msg];
      }
    }

    method Print(loggerOk: bool) returns (ok: bool)
      ensures ok <==> loggerOk && failedMsgs == []
    {
      ok := loggerOk && !(|failedMsgs| > 0);
    }

    method ToFile(loggerOk: bool) returns (ok: bool)
      ensures ok <==> loggerOk && failedMsgs == []
    {
      ok := loggerOk && !(|failedMsgs| > 0);
    }
  }

  lemma MessagesSnoc(json: bool, outputs: seq<CheckOutput>, o: CheckOutput)
    ensures Messages(json, outputs + [o]) == Messages(json, outputs) + [MessageOf(json, o)]
  {
  }

  // ----- result -----

  datatype ResultsItem = ResultsItem(status: string, test: string, code: int, elapsed: int, start: int, end: int)

  function ItemOf(o: CheckOutput): ResultsItem {
    ResultsItem(if o.passed then "pass" else "fail", o.name, if o.passed then 0 else 1, o.end - o.start, o.start, o.end)
  }

  datatype DocumentState = DocumentState(failed: bool, items: seq<ResultsItem>)

  function DocumentOf(outputs: seq<CheckOutput>): DocumentState {
    DocumentState(WithVerdict(outputs, false) != [],
                  seq(|outputs|, i requires 0 <= i < |outputs| => ItemOf(outputs[i])))
  }

  class ResultsDocument {
    var failed: bool
    var items: seq<ResultsItem>

    function State(): DocumentState
      reads this
    {
      DocumentState(failed, items)
    }

    constructor ()
      ensures State() == DocumentState(false, [])
    {
      failed, items := false, [];
    }

    method Populate(checks: seq<WorkUnit>) returns (errs: seq<string>)
      requires State() == DocumentState(false, [])
      modifies this
      ensures State() == DocumentOf(Outputs(checks)) && errs == Errors(checks)
      ensures |items| == |Outputs(checks)|
      ensures forall k :: 0 <= k < |items| ==>
        && items[k].status == (if Outputs(checks)[k].passed then "pass" else "fail")
        && items[k].code == (if Outputs(checks)[k].passed then 0 else 1)
        && items[k].test == Outputs(checks)[k].name
    {
      errs := [];
      for i := 0 to |checks|
        invariant State() == DocumentOf(Outputs(checks[..i])) && errs == Errors(checks[..i])
      {
        var wu := checks[i];
        ghost var done := Outputs(checks[..i]);
        assert checks[..i + 1] == checks[..i] + [wu];
        UnitsSnoc(checks[..i], wu);
        if wu.err.Some? {
          errs := errs + [wu.err.value];
          assert Outputs(checks[..i + 1]) == done;
          continue;
        }
        OutputsSnoc(done, wu.output, false);
        DocumentSnoc(done, wu.output);
        AddItem(wu.output);
      }
      assert checks[..|checks|] == checks;
    }

    method AddItem(check: CheckOutput)
      modifies this
      ensures items == old(items) + [ItemOf(check)]
      ensures var item := items[|items| - 1];
              && |items| == |old(items)| + 1
              && item.status == (if check.passed then "pass" else "fail")
              && item.code == (if check.passed then 0 else 1)
              && item.test == check.name
              && item.start == check.start && item.end == check.end && item.elapsed == check.end - check.start
      ensures failed <==> old(failed) || !check.passed
    {
      var item := ResultsItem("pass", check.name, 0, check.end - check.start, check.start, check.end);
      if !check.passed {
        item := item.(status := "fail", code := 1);
        failed := true;
      }
      items := items + [item];
    }
  }

  /** What a document shows of each output, and that it has failed iff one did not pass. */
  lemma DocumentShows(outputs: seq<CheckOutput>)
    ensures var d := DocumentOf(outputs);
            && |d.items| == |outputs|
            && (d.failed <==> exists k :: 0 <= k < |outputs| && !outputs[k].passed)
            && forall k :: 0 <= k < |outputs| ==>
                 var item, o := d.items[k], outputs[k];
                 && (item.status == "pass" <==> o.passed) && (item.status == "fail" <==> !o.passed)
                 && item.code == (if o.passed then 0 else 1)
                 && item.test == o.name
                 && item.start == o.start && item.end == o.end && item.elapsed == o.end - o.start
  {
    VerdictsPartition(outputs);
  }

  lemma DocumentSnoc(outputs: seq<CheckOutput>, o: CheckOutput)
    ensures DocumentOf(outputs + [o]).items == DocumentOf(outputs).items + [ItemOf(o)]
    ensures DocumentOf(outputs + [o]).failed <==> DocumentOf(outputs).failed || !o.passed
  {
    OutputsSnoc(outputs, o, false);
  }

  class Results {
    var skipPassing: bool
    var out: ResultsDocument?

    constructor ()
      ensures !skipPassing && out == null
    {
      skipPassing, out := false, null;
    }

    method SkipPassing()
      modifies this`skipPassing
      ensures skipPassing
    {
      skipPassing := true;
    }

    /** Each call starts a new document. */
    method Populate(jobs: seq<QueuedJob>) returns (errs: seq<string>)
      modifies this`out
      ensures out != null && fresh(out)
      ensures out.State() == DocumentOf(Outputs(Units(skipPassing, jobs)))
      ensures errs == Errors(Units(skipPassing, jobs))
    {
      out := new ResultsDocument();
      var units := JobsToCheck(skipPassing, jobs);
      errs := out.Populate(units);
    }

    method Print(ioOk: bool) returns (ok: bool)
      requires out != null
      ensures ok <==> ioOk && !out.failed
    {
      ok := ioOk && !out.failed;
    }

    method ToFile(ioOk: bool) returns (ok: bool)
      requires out != null
      ensures ok <==> ioOk && !out.failed
    {
      ok := ioOk && !out.failed;
    }
  }
}
