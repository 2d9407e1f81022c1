/** Choosing a producer, driving it once, and combining its verdicts. */
module Options {
  import opened Common
  import opened Converter
  import opened Producers
  import opened ReportProducer

  /** One of the registered implementations of the ResultsProducer interface. */
  datatype ResultsProducer =
    | GoTestProducer(gotest: GoTest)
    | ResultProducer(result: Results)
    | GripProducer(grip: GripOutput)
    | ReportProducer(report: Report)
  {
    function Object(): object {
      match this
      case GoTestProducer(p) => p
      case ResultProducer(p) => p
      case GripProducer(p) => p
      case ReportProducer(p) => p
    }
  }

  /** What the environment does to the output: whether loggers, encoders and files work. */
  datatype IO = IO(printWorks: bool, fileWorks: bool)

  /** How durations are written, and Go's semantics of loop variables. */
  datatype Runtime = Runtime(show: int -> string, perIteration: bool)

  const FORMATS := {"gotest", "result", "log", "json", "report"}

  /** The producer is the one registered for the format. */
  predicate Implements(rp: ResultsProducer, format: string) {
    match rp
    case GoTestProducer(_) => format == "gotest"
    case ResultProducer(_) => format == "result"
    case GripProducer(p) => format == if p.json then "json" else "log"
    case ReportProducer(_) => format == "report"
  }

  method GetResultsFactory(format: string, rt: Runtime) returns (rp: Option<ResultsProducer>)
    ensures rp.Some? <==> format in FORMATS
    ensures rp.Some? ==> fresh(rp.value.Object()) && Unused(rp.value, false)
    ensures rp.Some? ==> Implements(rp.value, format)
  {
    match format
    case "gotest" =>
      var p := new GoTest(rt.show);
      rp := Some(GoTestProducer(p));
    case "result" =>
      var p := new Results();
      rp := Some(ResultProducer(p));
    case "log" =>
      var p := new GripOutput(false);
      rp := Some(GripProducer(p));
    case "json" =>
      var p := new GripOutput(true);
      rp := Some(GripProducer(p));
    case "report" =>
      var p := new Report();
      rp := Some(ReportProducer(p));
    case _ =>
      rp := None;
  }

  /** A producer before its first Populate. */
  ghost predicate Unused(rp: ResultsProducer, skip: bool)
    reads rp.Object()
  {
    match rp
    case GoTestProducer(p) => p.numFailed == 0 && p.buf == "" && p.skipPassing == skip
    case ResultProducer(p) => p.skipPassing == skip
    case GripProducer(p) => p.passedMsgs == [] && p.failedMsgs == [] && p.skipPassing == skip
    case ReportProducer(p) => !p.hasErrors && p.skipPassing == skip
  }

  /** The producer holds results and none of them makes it fail. */
  ghost predicate Clean(rp: ResultsProducer)
    reads rp.Object(), if rp.ResultProducer? && rp.result.out != null then {rp.result.out} else {}
  {
    match rp
    case GoTestProducer(p) => p.numFailed == 0
    case ResultProducer(p) => p.out != null && !p.out.failed
    case GripProducer(p) => p.failedMsgs == []
    case ReportProducer(p) => !p.hasErrors
  }

  method SkipPassing(rp: ResultsProducer)
    requires Unused(rp, false)
    modifies rp.Object()
    ensures Unused(rp, true)
  {
    match rp
    case GoTestProducer(p) => p.SkipPassing();
    case ResultProducer(p) => p.SkipPassing();
    case GripProducer(p) => p.SkipPassing();
    case ReportProducer(p) => p.SkipPassing();
  }

  method Populate(rp: ResultsProducer, ghost skip: bool, jobs: seq<QueuedJob>, rt: Runtime) returns (errs: seq<string>)
    requires Unused(rp, skip)
    modifies rp.Object()
    ensures errs == [] <==> AllChecks(jobs)
    ensures errs == [] ==> (Clean(rp) <==> AllPassed(jobs))
    ensures rp.ResultProducer? ==> rp.result.out != null
  {
    FailingUnits(skip, jobs);
    match rp
    case GoTestProducer(p) => errs := p.Populate(jobs);
    case ResultProducer(p) => errs := p.Populate(jobs);
    case GripProducer(p) => errs := p.Populate(jobs);
    case ReportProducer(p) => errs := p.Populate(jobs, rt.perIteration);
  }

  method Print(rp: ResultsProducer, io: IO) returns (ok: bool)
    requires rp.ResultProducer? ==> rp.result.out != null
    ensures ok <==> (rp.GoTestProducer? || io.printWorks) && Clean(rp)
  {
    match rp
    case GoTestProducer(p) => ok := p.Print();
    case ResultProducer(p) => ok := p.Print(io.printWorks);
    case GripProducer(p) => ok := p.Print(io.printWorks);
    case ReportProducer(p) => ok := p.Print(io.printWorks);
  }

  method ToFile(rp: ResultsProducer, io: IO) returns (ok: bool)
    requires rp.ResultProducer? ==> rp.result.out != null
    ensures ok <==> io.fileWorks && Clean(rp)
  {
    match rp
    case GoTestProducer(p) => ok := p.ToFile(io.fileWorks);
    case ResultProducer(p) => ok := p.ToFile(io.fileWorks);
    case GripProducer(p) => ok := p.ToFile(io.fileWorks);
    case ReportProducer(p) => ok := p.ToFile(true, io.fileWorks);
  }

  datatype Options = Options(writeFile: bool, suppressPassing: bool, fn: string, format: string)

  function NewOptions(fn: string, format: string, quiet: bool): Option<Options> {
    if format !in FORMATS then None
    else Some(Options(fn != "", quiet, fn, format))
  }

  /** The format exists, and printing and any writing work. */
  predicate OutputWorks(o: Options, io: IO) {
    && o.format in FORMATS
    && (o.format == "gotest" || io.printWorks)
    && (o.writeFile ==> io.fileWorks)
  }

  /** When CollectResults reports no error. */
  ghost predicate Succeeds(o: Options, jobs: seq<QueuedJob>, io: IO) {
    OutputWorks(o, io) && AllPassed(jobs)
  }

  method GetResultsProducer(o: Options, rt: Runtime) returns (rp: Option<ResultsProducer>)
    ensures rp.Some? <==> o.format in FORMATS
    ensures rp.Some? ==> fresh(rp.value.Object()) && Unused(rp.value, o.suppressPassing)
    ensures rp.Some? ==> Implements(rp.value, o.format)
  {
    rp := GetResultsFactory(o.format, rt);
    if rp.Some? && o.suppressPassing {
      SkipPassing(rp.value);
    }
  }

  method CollectResults(o: Options, jobs: seq<QueuedJob>, io: IO, rt: Runtime) returns (ok: bool)
    ensures ok <==> Succeeds(o, jobs, io)
    ensures ok <==>
      && o.format in {"gotest", "result", "log", "json", "report"}
      && (forall i :: 0 <= i < |jobs| ==> jobs[i].Check? && jobs[i].output.passed)
      && (o.format == "gotest" || io.printWorks) && (o.writeFile ==> io.fileWorks)
  {
    var rp := GetResultsProducer(o, rt);
    if rp.None? {
      return false;
    }
    var errs := Populate(rp.value, o.suppressPassing, jobs, rt);
    if errs != [] {
      return false;
    }
    ok := Print(rp.value, io);
    if o.writeFile {
      var written := ToFile(rp.value, io);
      ok := ok && written;
    }
  }

  /** With the options that NewOptions makes, only a named file is written, and the quiet flag has no say. */
  lemma NewOptionsSucceed(fn: string, format: string, quiet: bool, jobs: seq<QueuedJob>, io: IO)
    ensures NewOptions(fn, format, quiet).None? <==> format !in FORMATS
    ensures format in FORMATS ==> NewOptions(fn, format, quiet) == Some(Options(fn != "", quiet, fn, format))
    ensures format in FORMATS ==>
      (Succeeds(NewOptions(fn, format, quiet).value, jobs, io) <==>
       AllPassed(jobs) && (format == "gotest" || io.printWorks) && (fn == "" || io.fileWorks))
  {
  }

  /** Format, quiet flag, order and repetition of the jobs do not change the verdict. */
  lemma VerdictOnlyNeedsTheJobs(o: Options, p: Options, a: seq<QueuedJob>, b: seq<QueuedJob>, io: IO)
    requires o.format in FORMATS && p.format in FORMATS && io.printWorks && io.fileWorks
    requires forall j :: j in a <==> j in b
    ensures Succeeds(o, a, io) <==> Succeeds(p, b, io)
  {
    assert AllPassed(a) <==> forall j :: j in a ==> j.Check? && j.output.passed;
    assert AllPassed(b) <==> forall j :: j in b ==> j.Check? && j.output.passed;
  }
}
