# A verified model of greenbay

Greenbay checks that a host is configured as a file of test definitions says: it indexes the definitions,
streams the selected tests to workers, runs their checks and reports the results in one of five formats.
This project models that path in Dafny and proves what its parts promise each other. To verify it,
run `dafny verify dfyconfig.toml`.

## How it is organised

- **Index and generators.** `ConfigIndex`, `Generators`, `Config`, `ConfigProperties`. The class
  `GreenbayTestConfig` fills its two maps entry by entry and walks them, as the Go methods do. Its methods
  are proved against an index that is defined by scanning the raw tests, so that whole histories of loads
  reduce to one parse of their concatenation.
- **The concurrent stream.** `ConfigStream`. `GetAllTests`, the two producers it starts, a receiving
  consumer and any number of `Reload` calls are a transition system over unbuffered channels and one
  read-write lock. Every interleaving is shown to deliver what the sequential generators send from two
  complete indexes, and no run is infinite or stuck. A writer that waits for the lock keeps new readers
  out, as `sync.RWMutex` specifies. A `Reload` parses one raw test per step, so the states in between exist
  and are shown to be invisible.
- **Results.** `Converter`, `ConverterStream`, `GoTestText`, `Producers`, `ReportProducer`, `Options`,
  `ProducerProperties`. `jobsToCheck` is a loop proved equal to a filter-map and, again, a transition
  system that computes it on every interleaving. Each producer's state after a `Populate` call is a
  function of its state before and the jobs; agreement, quiet mode and call histories are proved of these
  functions.
- **Runs.** `App`, `Selection`, `QueueRun`, `Client`. A local run with workers that finish in any order; the
  same run as a transition system, with the queue's bounded channel behind its lock, the dispatcher, the
  worker pool, a context that may be cancelled at any time and jobs that an earlier run completed; and a
  remote run whose fetching step can block for ever.
- **Checks.** `CheckBase`, `GroupRequirements`, `Checks`, `SemVer`, `PythonModule`, `PackageChecker`. What
  commands, file and package look-ups and hosts report are parameters of the `Run` methods; their verdicts
  and the history of errors are proved for all such results.

`Common` and `Greenbay` hold shared vocabulary.

## What the proofs bring to light

- `Reload` does not reset the maps (`config/config.go:76-95`). Reloading an unchanged file keeps every test
  and everything the generators send, but reports one error for every raw test in the file
  (`ReloadIdempotent`).
- A listed test without a job exists only if no raw test ever parsed under its name resolved
  (`MissingIffNeverResolved`).
- A test that is selected twice, by a repeated name or by its name next to a suite that lists it, makes
  `GreenbayApp.Run` fail, because the queue rejects a second job of that name (`SelectedTwiceFails`).
- A run whose context is cancelled while it waits reports success, since no result is looked at any more;
  so every accepted selection, however many of its checks fail, has a run that succeeds (`NothingReported`,
  and `FalseSuccess` for the exact case). A second run over the same configuration waits until its context
  ends, because the dispatcher drops jobs that are completed already (`QueueRun.MaximalRun`).
- After a conversion error the `gotest` producer keeps the failure count of an earlier call, although its
  text has grown. Over any calls its verdict is that of the last call whose jobs were all checks
  (`GoTestOverCalls`), which is the last call's own verdict exactly under the condition of
  `GoTestVerdictOfLastCall`; `StaleFailure` and `MissedFailure` are two histories where it is not.
- With one loop variable for the whole loop, as in Go before 1.22, the report shows the last output under
  every name. It is right only if all outputs have one name and nothing follows the last of them
  (`SharedVariable`, with `SharedVariableWrong` for two checks where it is not).
- A name, message or error whose continuation line looks like a header forges a line of the `gotest` text
  (`OneForgery`). Names and verdicts can be read back exactly when none does so and names have one line
  (`Decodable`), and the number of FAIL lines is always the number of failures plus the forged ones
  (`FailLinesCountFailures`).
- If any job cannot be fetched, `getJobFromIds` never returns: it sends on an unbuffered channel that no
  one else has seen (`GetJobFromIds`).
- `validate` of the Python module check never reports an error (`check/python_module.go:37-67`), while its
  unit test expects one for relationships that are not valid (`check/python_module_test.go:41-48`) and a
  comment in `Run` relies on that (`check/python_module.go:125-127`). The model follows the code: such a
  relationship is found only by the comparison, and a minimum relationship that is not valid goes unnoticed
  as long as there is no minimum version (`InvalidRelationshipFails`).
- When the minimum version cannot be parsed, the message of the Python module check names the expected
  version instead (`check/python_module.go:94`, `WhyUnread`).
- A file whose `Stat` fails for any reason but absence counts as existing (`FileGroup.Run`, `FileByFile`).

## Model

| member | source | states |
|---|---|---|
| ConfigIndex.FirstJob | config/raw.go:18-33 | the job kept for a name carries that name as its id |
| ConfigIndex.FirstJobIsFirst | config/parsing.go:101-109 | it is the job of the first raw test of that name whose operation is a registered check and whose arguments decode, with that test's name, suites, operation and arguments |
| ConfigIndex.OneRawTest | config/raw.go:18-50 | a raw test gets its job iff its operation is registered, makes checks, decodes its arguments, and its name is new; otherwise nothing changes and the one error names the test and the first of these that fails |
| ConfigIndex.OneEntry | config/parsing.go:70-80 | one raw test adds its job only if it resolves and its name is new; otherwise the tests stay as they are |
| ConfigIndex.ScanSuiteMembers | config/parsing.go:91-99 | a suite's list holds exactly the names of raw tests that list it, and is empty only for suites nobody lists |
| ConfigIndex.AfterConcat | config/parsing.go:65-109 | parsing one file on top of another leaves the index of parsing the two one after the other as one file |
| ConfigIndex.ErrorsConcat | config/parsing.go:65-87 | the errors of a file are those of its first part followed by those of its second part parsed on top |
| ConfigIndex.ParseConservation | config/parsing.go:65-109 | tests after + errors = tests before + raw tests, from any starting index |
| ConfigIndex.ErrorFree | config/parsing.go:65-109 | a parse has no errors iff all raw tests resolve under pairwise different names that were not present |
| Config.AppendIsAppended | config/parsing.go:91-99 | listing a test under suites one by one appends it to each list as often as the suite is named, and creates exactly the missing lists |
| Config.GreenbayTestConfig.Reset | config/config.go:38-41 | both maps are empty afterwards |
| Config.GreenbayTestConfig.ReadConfig | config/config.go:45-71 | a configuration is returned iff the file decodes and parses without error; it is then the index of the file |
| Config.GreenbayTestConfig.Reload | config/config.go:76-95 | the index becomes the old one with the file parsed on top, also when it fails; success iff it decodes and no entry fails |
| Config.GreenbayTestConfig.ParseTests | config/parsing.go:65-87 | the loop over raw tests leaves the index and reports the errors that the scan defines; the names are the old ones and those of usable raw tests, and there is no error iff all are usable under new and distinct names |
| Config.GreenbayTestConfig.AddSuites | config/parsing.go:91-99 | every named suite's list keeps its beginning and grows at the end by the test, once per mention, and no other list changes |
| Config.GreenbayTestConfig.AddTest | config/parsing.go:101-109 | a present name is kept and reported, a new one added |
| Config.GreenbayTestConfig.TestsByName | config/config.go:159-183 | the loop sends one item per name, in order: the job or an error |
| Config.GreenbayTestConfig.TestsForSuites | config/config.go:106-154 | the nested loops with their set of seen tests send the first listing of every test and an error per unknown suite |
| Config.GreenbayTestConfig.GetAllTests | config/config.go:186-200 | without a reload in between, the named tests come first, then those of the suites |
| Generators.FirstListingsConcat | config/config.go:112-147 | what a walk sends splits into what it has sent and what is new to the tests it has seen |
| Generators.FirstListingsOnce | config/config.go:133-139 | no test is sent twice |
| Generators.FirstListingsTests | config/config.go:124-147 | every listed test is sent |
| Generators.FirstListingsCount | config/config.go:112-147 | items = distinct listed tests + occurrences of unknown suites |
| Generators.WalkListing | config/config.go:124-147 | one turn of the inner loop keeps the seen set and the sent items in step with the entries walked |
| Generators.WalkEnd | config/config.go:150-153 | a finished walk has sent exactly the first listings |
| Generators.ForSuitesTraced | config/config.go:112-147 | where each item comes from: in walk order, one per unknown requested suite and one per place that is the first to list its test, with that test's job or the error for that test and suite; no such place is passed over |
| ConfigProperties.IndexEqualsScan | config/config.go:112-147 | on a reset configuration, the suite generator sends the first occurrences of a plain scan of the raw tests, each test once with the job of its first resolvable definition, with the exact count |
| ConfigProperties.ReplayIsOneParse | config/config.go:76-95 | any history of loads, failing ones included, leaves the index of one parse of everything they decoded |
| ConfigProperties.ReloadAll | config/config.go:76-95 | a configuration that is reloaded several times goes through that history, and each reload succeeds iff its file decodes and parses without error at that point |
| ConfigProperties.MissingIffNeverResolved | config/config.go:124-144 | in every reachable state a listed test is missing iff no raw test ever parsed under its name had a registered check as operation and arguments that decode, and there is one of that name |
| ConfigProperties.CleanHistoryNothingMissing | config/config.go:128-144 | after loads without parse errors no generator reports a listed test as missing |
| ConfigProperties.PaddedSendsTheSame | config/config.go:133-139 | lists that only repeat their own tests at the end send the same items |
| ConfigProperties.ReloadIdempotent | config/config.go:76-95 | any number of reloads of parsed raw tests keeps the tests and all generated sequences, and each reports one error per raw test |
| ConfigStream.StepInv | config/config.go:76-200 | every step of every goroutine keeps the invariant of locks, channels, index and items |
| ConfigStream.HeldIndex | config/config.go:109-110 | under a read lock the index in memory is the one found when the lock was taken |
| ConfigStream.Linearised | config/config.go:106-200 | on every interleaving the consumer has a prefix of the named tests of one complete index followed by the suites' tests of another; all of it at the close; from the second lock on, the second index is no older than the first; no reload writes under a read lock |
| ConfigStream.Progress | config/config.go:106-200 | until the stream is over and the lock free, some step is possible without a new reload |
| ConfigStream.MeasureDrops | config/config.go:106-200 | every step lowers a lexicographic measure of remaining reloads and remaining stream |
| ConfigStream.MaximalRun | config/config.go:106-200 | a run that cannot go on has delivered everything, closed each channel once with no send after it, and left the lock free with all reloads done |
| Converter.JobsToCheck | output/coverter.go:17-44 | the loop computes the filter-map of its jobs |
| Converter.UnitsJobByJob | output/coverter.go:21-39 | job by job, in order: a check gives its output unless it passed and is skipped, any other job gives the empty output next to its error |
| Converter.UnitByUnit | output/results.go:96-107 | unit by unit, in order: a producer records its output or its error |
| Converter.VerdictByOutput | output/grip.go:65-69 | output by output, in order: it is kept iff it has the verdict |
| Converter.UnitsAccount | output/coverter.go:21-39 | units out + skipped passing jobs = jobs in |
| Converter.QuietUnits | output/coverter.go:30-33 | skipping keeps every conversion error and exactly the failing outputs, in order |
| Converter.FailingUnits | output/coverter.go:17-56 | skipping or not, there is an error iff some job is not a check, and otherwise a failing output iff some job failed |
| ConverterStream.StepInv | output/coverter.go:17-44 | every step of source, converter and consumer keeps the channels in step with the filter-map |
| ConverterStream.FilterMap | output/coverter.go:17-44 | on every interleaving a prefix of the units arrives; at the close all of them, with jobs accounted for and no conversion error lost |
| ConverterStream.Progress | output/coverter.go:17-44 | until the output is closed some step is possible, for a source of any capacity |
| ConverterStream.WorkDrops | output/coverter.go:17-44 | every step lowers the work left |
| GoTestText.Decodable | output/gotest.go:72-110 | for any outputs, the lines of the text give back all names in order iff each name has one line and no continuation line announces a test, and all verdicts iff no continuation line closes one |
| GoTestText.SingleLinesShow | output/gotest.go:91-110 | texts without newline have no continuation lines, so their names and verdicts are read back |
| GoTestText.FailLinesCountFailures | output/gotest.go:72-110 | for any outputs, FAIL lines = failures + forged lines, so they count the failures iff none is forged |
| GoTestText.OneForgery | output/gotest.go:93-95 | a passing check whose message has a second line that reads as a failure gives a FAIL line and wrong verdicts |
| Producers.GoTest.Populate | output/gotest.go:30-40 | the text grows by the outputs; the count becomes theirs, unless a job cannot be converted |
| Producers.GoTest.ProduceResults | output/gotest.go:72-89 | the loop writes the outputs' texts in order and counts the failing ones |
| Producers.GoTest.PrintTestResult | output/gotest.go:91-110 | one output's text is appended, as the written-out header, message, error and verdict lines, and its verdict returned |
| Producers.GoTest.Print | output/gotest.go:56-64 | succeeds iff no failure is counted |
| Producers.GoTest.ToFile | output/gotest.go:43-53 | succeeds iff the file can be written and no failure is counted |
| Producers.GripOutput.Populate | output/grip.go:22-72 | passing and failing messages are appended to what earlier calls left, in order; json and log differ only in the message |
| Producers.LoggedShows | output/grip.go:65-69 | the messages of each verdict keep their beginning and grow by one per output of that verdict, in order, structured for json and formatted for log |
| Producers.GripOutput.Print | output/grip.go:117-144 | succeeds iff the logger works and there is no failing message |
| Producers.GripOutput.ToFile | output/grip.go:86-113 | succeeds iff the logger works and there is no failing message |
| Producers.ResultsDocument.Populate | output/results.go:96-108 | one item per output in order; failed iff one did not pass |
| Producers.ResultsDocument.AddItem | output/results.go:110-126 | one item is appended, "pass" with code 0 or "fail" with code 1, with the check's name and times; failed is sticky |
| Producers.DocumentShows | output/results.go:110-126 | item k of a document shows the name, verdict, code and times of output k, and the document has failed iff some output did not pass |
| Producers.Results.Populate | output/results.go:36-44 | the document is a new one for this call's outputs |
| Producers.Results.Print | output/results.go:60-70 | succeeds iff the output works and the document has no failure |
| Producers.Results.ToFile | output/results.go:47-57 | succeeds iff the file can be written and the document has no failure |
| ReportProducer.Report.Populate | output/report.go:27-44 | the map is that of this call, the error flag is sticky, under either semantics of the loop variable |
| ReportProducer.Report.Record | output/report.go:31-41 | one turn of the loop: the address of the loop variable is stored under the output's name |
| ReportProducer.Report.Print | output/report.go:66-79 | succeeds iff the map can be encoded and nothing ever failed |
| ReportProducer.Report.ToFile | output/report.go:47-62 | succeeds iff encoding and writing work and nothing ever failed |
| ReportProducer.ReportOf | output/options.go:101-114 | the map of a fresh report, or an empty one next to the conversion errors |
| ReportProducer.OwnOutput | output/report.go:31-41 | with one variable per iteration, differently named checks show their own output |
| ReportProducer.ShowsOwn | output/report.go:31-41 | with one variable per iteration the report has exactly the recorded names, each with the last output under it |
| ReportProducer.ReportOfAnyOrder | output/report.go:27-44 | the report on differently named checks is the same for every order of the jobs |
| ReportProducer.SharedVariable | output/report.go:31-41 | with one shared variable the names are right, and the report is iff nothing was recorded, or all recorded outputs have one name and the loop received nothing after the last of them |
| ReportProducer.SharedVariableRightForOne | output/report.go:31-41 | for differently named checks a shared variable is right iff there is at most one |
| ReportProducer.SharedVariableWrong | output/report.go:31-41 | a failing check followed by a passing one is shown as passing |
| ProducerProperties.ProducersAgree | output/coverter.go:30-38 | all formats count the same failures, which are there iff some job failed |
| ProducerProperties.QuietRefinement | output/coverter.go:30-38 | under SkipPassing every producer does what it would do on the non-passing jobs alone, with the verdict it would have without it |
| ProducerProperties.GoTestOverCalls | output/gotest.go:30-40 | over any calls, those with conversion errors included, the text is that of all calls, and the verdict is that of the last call whose jobs were all checks, or no failure if there is none |
| ProducerProperties.GoTestVerdictOfLastCall | output/gotest.go:33-37 | the verdict is that of the last call iff its jobs are all checks or the verdict left from before agrees |
| ProducerProperties.StaleFailure | output/gotest.go:33-37 | after a failing check and then a job that is no check, the failure of the first call still counts |
| ProducerProperties.MissedFailure | output/gotest.go:33-37 | a failing check next to a job that is no check is not counted |
| ProducerProperties.GoTestCalls | output/gotest.go:30-40 | a gotest producer that is populated several times reaches the state of that history |
| ProducerProperties.ResultOverCalls | output/results.go:36-44 | over any calls, result fails and has items of code 1 iff the last call had a failing check |
| ProducerProperties.ResultCalls | output/results.go:36-44 | a result producer that is populated several times reaches the state of that history |
| ProducerProperties.GripOverCalls | output/grip.go:22-72 | log and json hold the messages of all calls |
| ProducerProperties.GripFailsForAnyCall | output/grip.go:107-110 | over any calls, log and json fail iff some call had a failing check |
| ProducerProperties.GripCalls | output/grip.go:22-72 | a log or json producer that is populated several times reaches the state of that history |
| ProducerProperties.ReportOverCalls | output/report.go:27-44 | over any calls, report fails iff some call had a job that is not a passing check, and shows only the last call |
| ProducerProperties.ReportCalls | output/report.go:27-44 | a report producer that is populated several times reaches the state of that history |
| Options.GetResultsFactory | output/registry.go:21-47 | exactly the five formats have a producer, each its own, fresh and unused |
| Options.GetResultsProducer | output/options.go:47-59 | the producer registered for the format, unused, with the quiet flag passed on |
| Options.NewOptionsSucceed | output/options.go:25-41 | options exist for exactly the five formats; with them only a named file is written and the quiet flag has no say in the verdict |
| Options.CollectResults | output/options.go:77-97 | no error iff the format exists, every job is a passing check, and printing and any writing work |
| Options.VerdictOnlyNeedsTheJobs | output/options.go:77-97 | with working output the verdict is the same for all formats, quiet or not, in any order of the jobs |
| App.LocalUnordered.Results | vendor/github.com/mongodb/amboy/queue/unordered.go:161-180 | the completed jobs, once each, in an arbitrary order |
| App.Run | operations/app.go:71-112 | in a living context and over jobs that no earlier run completed: no error iff every item is a job, no two share a name, all pass, and the output works; whatever the schedule, worker count, format and quiet flag |
| QueueRun.StepInv | vendor/github.com/mongodb/amboy/queue/unordered.go:76-96 | every step of submitting loop, dispatcher, workers, counters, waiting loop and results keeps each accepted job in exactly one place, and the counts in step |
| QueueRun.RunOutcome | operations/app.go:71-112 | a run that reports has put every item, and reports distinct jobs it ran itself; it succeeds iff the output works and what it reports passed; unless the context was cancelled that is every selected job, none completed before |
| QueueRun.FalseSuccess | operations/app.go:104-111 | with working output, a run succeeds although a selected check failed iff the context was cancelled and no failing job was reported |
| QueueRun.NothingReported | operations/app.go:104-111 | every accepted selection, whatever its checks say, has a run that succeeds: one whose context is cancelled while it waits |
| QueueRun.MaximalRun | vendor/github.com/mongodb/amboy/pool/local.go:63-123 | a run that cannot go on in a living context is rejected iff an item is not accepted, waits for ever iff a selected job was completed before, and else reports; in a cancelled one it ends, unless Put waits for room, with more jobs than the channel holds |
| QueueRun.WorkDrops | vendor/github.com/mongodb/amboy/pool/local.go:63-123 | every step lowers the work left, so no run is infinite |
| Selection.AcceptedIffSelectable | operations/app.go:91-100 | all items are accepted iff the names are distinct and known, the suites resolve, and no named test is also listed |
| Selection.RunSelected | operations/app.go:91-111 | a run over two indexes reports no error iff the selection is accepted, every selected job passes, and the output works |
| Selection.SelectedTwiceFails | operations/app.go:96-100 | a test asked for by name and by suite is never accepted |
| Selection.ReplayWellKeyed | config/raw.go:29-29 | loads keep every job stored under its own id |
| Selection.RunStreamed | operations/app.go:71-112 | on every interleaving with reloads, pending ones included, a run on what the stream delivered reports no error iff the selection is accepted and passes on the two complete indexes that were found, and the output works |
| Client.GetJobFromIds | operations/client.go:118-136 | returns iff no fetch failed, with closed channels and one job per id in order; the job sends never block, the error send always does |
| Client.Run | operations/client.go:61-116 | with the k-th fetch made for the id the k-th submission returned: never returns iff all was submitted and waited for but a fetch failed; no error iff everything went well, all fetched jobs are passing checks, and the output works |
| CheckBase.Base.StartTask | check/base.go:153-158 | only the start time changes |
| CheckBase.Base.SetState | check/base.go:94-100 | only verdict and end time change |
| CheckBase.Base.AddError | vendor/github.com/mongodb/amboy/job/base.go:66-74 | an error is appended, nil ignored |
| CheckBase.Base.SetMessages | check/base.go:116-117 | the message is the lines joined by newlines |
| CheckBase.JoinSnoc | check/base.go:116-117 | joining puts the separator between neighbours, in order |
| CheckBase.TrimCuts | check/python_module.go:106-106 | trimming cuts blanks, tabs and line ends off both ends, and as many as there are |
| CheckBase.DecimalIsValue | check/container.go:122-122 | a number is written in decimal digits |
| CheckBase.Base.Output | check/base.go:70-92 | every field of the output is that of the check, with all errors joined |
| CheckBase.Configured | config/raw.go:29-30 | a configured check reports the test's name and suites, and starts without errors |
| CheckBase.FailedIffErrors | check/base.go:94-100 | after any runs of a check: completed, passed iff the last run did, errors only grew, and they are those before the runs iff every run passed |
| CheckBase.RunsTell | check/base.go:94-100 | so much holds of every state that runs with given verdicts lead to |
| GroupRequirements.Validate | check/group_requirements.go:50-71 | counting finds no error iff the requirements are valid, and otherwise the error of the cause |
| GroupRequirements.ValidMeans | check/group_requirements.go:50-71 | valid are the named requirements of exactly one kind; the two error texts |
| GroupRequirements.SelectPositions | check/command_group.go:64-69 | a half of the partition holds its items at increasing positions, and all of them |
| GroupRequirements.SelectPartitions | check/command_group.go:64-69 | the two halves have all items between them, and one is empty iff all flags agree |
| GroupRequirements.SelectOne | check/group_requirements.go:28-31 | one success is counted iff exactly one item passes |
| GroupRequirements.CountingDecides | check/group_requirements.go:23-45 | counting the halves decides all, any, exactly one and none as quantified over the items |
| GroupRequirements.GroupPassesMeans | check/group_requirements.go:23-45 | for each of the four kinds, a group passes iff it is not empty and all, some, exactly one or none of its parts pass; other requirements never pass |
| Checks.ShellOperation.Run | check/command.go:44-93 | passes iff the exit result is the expected one; a failing run adds the one written-out error for its kind and shows the output |
| Checks.ShellOperation.RunRepeatedly | check/command.go:44-93 | over any runs with any results, the check is completed, passed iff the last run did, its errors only grew, and none were added iff all runs passed |
| Checks.ShellGroup.RunCommand | check/command_group.go:57-64 | a command runs, with a new state if it has none, and reports its verdict |
| Checks.ShellGroup.RunCommands | check/command_group.go:57-70 | the loop splits the reported outputs by verdict, in order, without touching the group's state |
| Checks.ShellGroup.Admit | check/command_group.go:41-52 | commands are run iff the requirement is valid and there are any; otherwise one error says why |
| Checks.ShellGroup.Conclude | check/command_group.go:72-104 | the verdict by counting and, if negative, the joined messages and errors of the printable results |
| Checks.ShellGroup.Run | check/command_group.go:37-105 | passes iff the commands' verdicts meet a valid requirement; otherwise shows the messages of exactly the printable results and one error more, or says what is wrong with an invalid or empty group |
| Checks.ShellGroup.ExpectedMeans | check/command_group.go:57-70 | each command counts as passing iff its exit result is the one that command expects |
| Checks.PrintableMeans | check/command_group.go:83-90 | which results a failing group shows, and in which order, for each kind |
| Checks.OutputByOutput | check/command_group.go:57-100 | results are split by their verdict, and messages and errors shown iff they are not empty, in order |
| Checks.ShellGroup.RunRepeatedly | check/command_group.go:37-105 | over any runs with any results, the check is completed, passed iff the last run did, its errors only grew, and none were added iff all runs passed |
| Checks.ConclusionIsRight | check/command_group.go:72-104 | counting and printing agree with the quantified requirement: none prints successes, any and one successes then failures, all failures |
| Checks.FileGroup.Run | check/file_group_exists.go:37-82 | passes iff there are files and, for a requirement of all, any, one or none, all, some, exactly one or none of the stat results are anything but a definite absence; otherwise the written-out message lists both halves and the one error is that of the cause |
| Checks.FileByFile | check/file_group_exists.go:57-67 | a file is listed as existing iff its stat result is not a definite absence, else as missing, in order |
| Checks.FileGroup.RunRepeatedly | check/file_group_exists.go:37-82 | over any runs with any results, the check is completed, passed iff the last run did, its errors only grew, and none were added iff all runs passed |
| Checks.PackageGroup.Run | check/package_group.go:38-77 | passes iff there are packages and, for each kind of requirement, that many are installed; otherwise shows all messages and adds exactly the error of its cause |
| Checks.PackageGroup.RunRepeatedly | check/package_group.go:38-77 | over any runs with any results, the check is completed, passed iff the last run did, its errors only grew, and none were added iff all runs passed |
| Checks.ContainerCheck.Run | check/container.go:97-135 | passes iff there are hosts and all are reachable with all programs; the errors are one per failing host, in order |
| Checks.HostByHost | check/container.go:111-127 | host by host, in order: an unreachable one leaves its error, one that misses programs an error with their number and their messages, any other nothing |
| Checks.ContainerCheck.RunRepeatedly | check/container.go:97-135 | over any runs with any results, the check is completed, passed iff the last run did, its errors only grew, and none were added iff all runs passed |
| Checks.HostErrorsDecide | check/container.go:111-134 | errors, the count of active hosts and the messages each tell whether all hosts passed |
| SemVer.CompareListsIsBefore | vendor/github.com/blang/semver/semver.go:142-160 | the loop over identifiers finds the first difference, or the missing rest, as section 11.4 of Semantic Versioning 2.0.0 asks |
| SemVer.CompareIdentifiersIsLower | vendor/github.com/blang/semver/semver.go:344-366 | numeric identifiers compare by value and below texts, texts by their first different character, and only equal ones tie |
| SemVer.CompareIsPrecedence | vendor/github.com/blang/semver/semver.go:113-162 | the comparison is the precedence of section 11 of Semantic Versioning 2.0.0, stated without it, in both directions |
| SemVer.PrecedenceIsTotalPreorder | vendor/github.com/blang/semver/semver.go:113-162 | precedence is reflexive, total and transitive |
| SemVer.EqualPrecedence | vendor/github.com/blang/semver/semver.go:113-162 | versions of equal precedence differ only in build metadata |
| SemVer.ReleaseExamples | vendor/github.com/blang/semver/semver.go:113-131 | the chain of releases in section 11.2 of Semantic Versioning 2.0.0 |
| SemVer.CandidateExamples | vendor/github.com/blang/semver/semver.go:133-160 | the chain of pre-releases in section 11.4 of Semantic Versioning 2.0.0, up to the release |
| PythonModule.CompareVersionsIsPrecedence | check/version.go:8-23 | each relationship is the one its name says of precedence, and only the known ones are no error |
| PythonModule.WindowByPrecedence | check/python_module.go:123-152 | for every pair of relationships, a version is accepted iff it stands in the first to the expected version and, if there is a minimum, in the second to the minimum, each read off precedence |
| PythonModule.WindowIsConvex | check/python_module.go:123-152 | a version between two accepted ones is accepted, for all relationships |
| PythonModule.WindowIgnoresBuild | check/python_module.go:123-152 | acceptance does not see build metadata |
| PythonModule.DefaultWindow | check/python_module.go:45-64 | without given relationships a minimum closes the window at both ends, exactly; it is empty iff the minimum is above the version |
| PythonModule.InvalidRelationshipFails | check/python_module.go:123-142 | a relationship that is not valid never passes; a minimum relationship matters iff there is a minimum |
| PythonModule.PythonModuleVersion.Validate | check/python_module.go:37-67 | empty settings get their defaults in place, and there is never an error |
| PythonModule.PythonModuleVersion.Run | check/python_module.go:69-153 | passes iff the written-out command succeeds, all versions can be read, and the trimmed output stands in both relationships, read off precedence; otherwise exactly the error and message of its cause |
| PythonModule.PythonModuleVersion.RunRepeatedly | check/python_module.go:69-153 | over any runs the settings filled in by the first one stay; completed, passed iff the last run did, errors only grew, and none were added iff all runs passed |
| PythonModule.PythonModuleVersion.Compare | check/python_module.go:123-152 | passes iff the version stands in both relationships, read off precedence; otherwise the written-out error and message say so, unless a relationship is not valid |
| PythonModule.WhyUnreadMeans | check/python_module.go:80-121 | which failure to read a version is reported, with its error and its written-out message |
| PackageChecker.Append | check/package_checker.go:18-18 | append writes in place iff there is room, and copies otherwise |
| PackageChecker.Call | check/package_checker.go:17-29 | an uninterrupted call runs the captured command with the package's name, reports it installed iff that succeeds, with the written-out message, and leaves the capture as it was |
| PackageChecker.OverlappingCalls | check/package_checker.go:16-30 | on every schedule of calls, what a call reads as its last argument is its own name, or the last name anyone appended if the captured slice has room |
| PackageChecker.CallsAreIndependent | check/package_checker.go:16-30 | all schedules let every call read its own name iff the slice has no room or all names are equal |
| PackageChecker.RegisteredChecker | check/init.go:4-11 | the registered checkers capture literals, so overlapping calls always run their own commands |

## Left out

- Decoding: which files decode and which arguments an operation accepts are parameters. A decode that fails halfway leaves an arbitrary list of raw tests; reuse of old elements by the decoder is not modelled.
- Jobs are values. That one job object is shared by the index, the queue and later runs is modelled only as jobs that a run finds completed (`QueueRun`); it is not modelled that the client renames it in place before submitting it.
- CheckBase.Base.AddError: records the text of an error without the stack trace that formatting with `%+v` appends.
- Checks.ShellOperation.Run: likewise; the text that `Wrapf` makes of its two surplus arguments is modelled.
- The commands of a group and their states are different objects, as decoding makes them.
- Processes, file status, ssh, timeouts and wall-clock time are parameters: each check gets the results of its external calls, in order, and two times. Working directory, environment and log lines of shell commands are not modelled.
- App.Run: its queue has no bounded channel, and its context lives; `QueueRun` has both, and jobs that completed before.
- GreenbayApp.Run and GreenbayClient.Run without a configuration or output are not modelled, nor a client's cancelled context.
- Jobs that panic or never finish are not modelled; the intervals of the waiting loop are, as polls at any time.
- The lock inside `Base`, including `Output` taking it again through `Suites`, is not modelled; its methods are atomic steps of one check's run.
- The message setter is modelled for strings and lists of strings, which is what the modelled checks pass.
- Producer registration at run time: the model has the five formats that are registered at start.
- How durations and versions are written is a parameter; encoding of the JSON documents and the text of log messages is not modelled.
- Parsing of version strings is a parameter of the Python module check.
- Single package, file, program, compile and limit checks, the HTTP service, the configuration builder and the command line would add only easy members.
- PackageChecker.Append: growth beyond the needed length is an arbitrary amount, as the Go specification leaves it open.
