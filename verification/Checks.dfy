/** The checks whose verdict comes from several external results, with those results as parameters. */
module Checks {
  import opened Common
  import opened Greenbay
  import opened CheckBase
  import opened GroupRequirements

  // ----- one shell command -----

  /** What executing a command comes to. */
  datatype Execution = Execution(output: string, err: Option<string>)

  predicate CommandPasses(shouldFail: bool, x: Execution) {
    x.err.Some? <==> shouldFail
  }

  /** The cause, and below it the wrapping message, whose format leaves its two arguments over. */
  function CommandFailed(id: string, command: string, cause: string): string {
    cause + "\n" + "command failed%!(EXTRA string=" + id + ", string=" + command + ")"
  }

  function CommandErrors(id: string, command: string, shouldFail: bool, x: Execution): seq<string> {
    if CommandPasses(shouldFail, x) then []
    else [if shouldFail then "command '" + command + "' succeeded but test expects it to fail"
          else CommandFailed(id, command, x.err.value)]
  }

  class ShellOperation {
    const Command: string
    const shouldFail: bool
    var base: Base?

    constructor (command: string, shouldFail: bool, base: Base?)
      ensures this.base == base && this.shouldFail == shouldFail && Command == command
    {
      Command, this.shouldFail, this.base := command, shouldFail, base;
    }

    method Run(x: Execution, start: int, end: int)
      requires base != null
      modifies base
      ensures RanOnce(old(base.State()), base.State(), CommandPasses(shouldFail, x), start, end)
      ensures base.Errors == old(base.Errors) + CommandErrors(old(base.TaskID), Command, shouldFail, x)
      ensures base.WasSuccessful <==> if shouldFail then x.err.Some? else x.err.None?
      ensures x.err.Some? && !shouldFail ==>
        base.Errors == old(base.Errors)
        + [x.err.value + "\n" + "command failed%!(EXTRA string=" + old(base.TaskID) + ", string=" + Command + ")"]
      ensures x.err.None? && shouldFail ==>
        base.Errors == old(base.Errors) + ["command '" + Command + "' succeeded but test expects it to fail"]
      ensures !CommandPasses(shouldFail, x) ==> base.Message == x.output
    {
      base.StartTask(start);
      if x.err.Some? {
        if !shouldFail {
          base.SetState(false, end);
          base.AddError(Some(CommandFailed(base.TaskID, Command, x.err.value)));
        } else {
          base.SetState(true, end);
        }
      } else if shouldFail {
        base.SetState(false, end);
        base.AddError(Some("command '" + Command + "' succeeded but test expects it to fail"));
      } else {
        base.SetState(true, end);
      }
      if !base.WasSuccessful {
        base.SetMessage(x.output);
      }
      base.MarkComplete();
    }

    /** One more run after others. */
    method RunAgain(ghost first: BaseState, ghost verdicts: seq<bool>, x: Execution, start: int, end: int)
      requires base != null && RanThrough(first, base.State(), verdicts)
      modifies base
      ensures RanThrough(first, base.State(), verdicts + [CommandPasses(shouldFail, x)])
    {
      ghost var before := base.State();
      Run(x, start, end);
      OneMoreRun(first, before, base.State(), verdicts, CommandPasses(shouldFail, x), start, end);
    }

    /** Run again and again, with whatever results each time. */
    method RunRepeatedly(xs: seq<Execution>, times: seq<(int, int)>) returns (ghost verdicts: seq<bool>)
      requires |times| == |xs|
      requires base != null
      modifies base
      ensures |verdicts| == |xs|
      ensures forall k :: 0 <= k < |xs| ==>
        (verdicts[k] <==> CommandPasses(shouldFail, xs[k]))
      ensures AfterRuns(old(base.State()), base.State(), verdicts)
    {
      ghost var first := base.State();
      NoRuns(first);
      verdicts := [];
      for i := 0 to |xs|
        invariant |verdicts| == i && RanThrough(first, base.State(), verdicts)
        invariant forall k :: 0 <= k < i ==> (verdicts[k] <==> CommandPasses(shouldFail, xs[k]))
      {
        RunAgain(first, verdicts, xs[i], times[i].0, times[i].1);
        verdicts := verdicts + [CommandPasses(shouldFail, xs[i])];
      }
      RunsTell(first, base.State(), verdicts);
    }
  }

  // ----- a group of shell commands -----

  /** The error of a group that has nothing of some kind. */
  function NothingIn(kind: string, s: BaseState): string {
    kind + " for '" + s.id + "' (" + s.name + ") check"
  }

  function Flags(outputs: seq<CheckOutput>): seq<bool> {
    seq(|outputs|, i requires 0 <= i < |outputs| => outputs[i].passed)
  }

  function OfVerdict(outputs: seq<CheckOutput>, passed: bool): seq<CheckOutput> {
    Select(outputs, Flags(outputs), passed)
  }

  /** Outputs are kept iff they have the verdict; messages and errors iff they are not empty. */
  lemma OutputByOutput(outputs: seq<CheckOutput>, o: CheckOutput)
    ensures OfVerdict([], true) == [] && OfVerdict([], false) == []
    ensures OfVerdict(outputs + [o], true)
         == if o.passed then OfVerdict(outputs, true) + [o] else OfVerdict(outputs, true)
    ensures OfVerdict(outputs + [o], false)
         == if o.passed then OfVerdict(outputs, false) else OfVerdict(outputs, false) + [o]
    ensures NonEmptyMessages([]) == [] && NonEmptyErrors([]) == []
    ensures NonEmptyMessages(outputs + [o])
         == if o.message == "" then NonEmptyMessages(outputs) else NonEmptyMessages(outputs) + [o.message]
    ensures NonEmptyErrors(outputs + [o])
         == if o.error == "" then NonEmptyErrors(outputs) else NonEmptyErrors(outputs) + [o.error]
  {
    OfVerdictSnoc(outputs, o, true);
    OfVerdictSnoc(outputs, o, false);
    assert (outputs + [o])[..|outputs|] == outputs;
  }

  /** A failing group prints the successes (none), successes and then failures (any, one), or failures (all). */
  lemma PrintableMeans(gr: GroupRequirements, outputs: seq<CheckOutput>)
    requires ValidRequirements(gr)
    ensures gr.none ==> Printable(gr, outputs) == OfVerdict(outputs, true)
    ensures gr.any || gr.one ==> Printable(gr, outputs) == OfVerdict(outputs, true) + OfVerdict(outputs, false)
    ensures gr.all ==> Printable(gr, outputs) == OfVerdict(outputs, false)
  {
  }

  /** The results that a failing group prints. */
  function Printable(gr: GroupRequirements, outputs: seq<CheckOutput>): seq<CheckOutput> {
    if gr.none then OfVerdict(outputs, true)
    else if gr.any || gr.one then OfVerdict(outputs, true) + OfVerdict(outputs, false)
    else OfVerdict(outputs, false)
  }

  function NonEmptyMessages(outputs: seq<CheckOutput>): seq<string> {
    if outputs == [] then []
    else
      var m := outputs[|outputs| - 1].message;
      NonEmptyMessages(outputs[..|outputs| - 1]) + (if m != "" then [m] else [])
  }

  function NonEmptyErrors(outputs: seq<CheckOutput>): seq<string> {
    if outputs == [] then []
    else
      var e := outputs[|outputs| - 1].error;
      NonEmptyErrors(outputs[..|outputs| - 1]) + (if e != "" then [e] else [])
  }

  lemma OfVerdictSnoc(outputs: seq<CheckOutput>, o: CheckOutput, passed: bool)
    ensures OfVerdict(outputs + [o], passed) == OfVerdict(outputs, passed) + (if o.passed == passed then [o] else [])
  {
    assert Flags(outputs + [o]) == Flags(outputs) + [o.passed];
    SelectSnoc(outputs, Flags(outputs), o, o.passed, passed);
  }

  /** The two halves of some outputs. */
  ghost predicate Split(success: seq<CheckOutput>, failure: seq<CheckOutput>, outputs: seq<CheckOutput>) {
    success == OfVerdict(outputs, true) && failure == OfVerdict(outputs, false)
  }

  lemma SplitNext(success: seq<CheckOutput>, failure: seq<CheckOutput>, outputs: seq<CheckOutput>, o: CheckOutput)
    requires Split(success, failure, outputs)
    ensures if o.passed then Split(success + [o], failure, outputs + [o])
            else Split(success, failure + [o], outputs + [o])
  {
    OfVerdictSnoc(outputs, o, true);
    OfVerdictSnoc(outputs, o, false);
  }

  /** The state of a group after its commands came out as success and failure. */
  function Conclusion(gr: GroupRequirements, was: BaseState, success: seq<CheckOutput>, failure: seq<CheckOutput>,
                      end: int): BaseState
  {
    var (result, wrong) := GetResults(gr, |success|, |failure|);
    var errors := was.errors + match wrong { case None => [] case Some(e) => [e] };
    if result then was.(passed := true, end := end, errors := errors)
    else
      var printed := if gr.none then success else if gr.any || gr.one then success + failure else failure;
      was.(passed := false, end := end, message := Join(NonEmptyMessages(printed), "\n"),
           errors := errors + [Join(NonEmptyErrors(printed), "\n")])
  }

  /** A failing group shows the messages and errors of exactly its printable results. */
  ghost predicate Concluded(gr: GroupRequirements, before: BaseState, after: BaseState, outputs: seq<CheckOutput>) {
    outputs != [] && !Satisfied(gr, Flags(outputs)) ==>
      var printed := Printable(gr, outputs);
      && after.message == Join(NonEmptyMessages(printed), "\n")
      && after.errors == before.errors + [Join(NonEmptyErrors(printed), "\n")]
  }

  /** A group that did not run its commands says why. */
  ghost predicate Rejected(gr: GroupRequirements, before: BaseState, after: BaseState) {
    && after.message == before.message
    && after.errors == before.errors + GroupErrors(gr, [], NothingIn("no files specified", before), "")
  }

  /** What the outputs of a group's commands, if it ran any, make of its state. */
  ghost predicate Ran(gr: GroupRequirements, before: BaseState, after: BaseState, outputs: seq<CheckOutput>,
                      flags: seq<bool>, end: int)
  {
    && Judged(before, after, GroupPasses(gr, flags), end)
    && (if outputs == [] then Rejected(gr, before, after) else Concluded(gr, before, after, outputs))
  }

  lemma RejectedRan(gr: GroupRequirements, before: BaseState, after: BaseState, flags: seq<bool>, end: int)
    requires Judged(before, after, false, end) && Rejected(gr, before, after)
    requires !ValidRequirements(gr) || flags == []
    ensures Ran(gr, before, after, [], flags, end)
  {
  }

  lemma ConcludedRan(gr: GroupRequirements, before: BaseState, after: BaseState, outputs: seq<CheckOutput>, end: int)
    requires ValidRequirements(gr) && outputs != []
    requires Judged(before, after, Satisfied(gr, Flags(outputs)), end) && Concluded(gr, before, after, outputs)
    ensures Ran(gr, before, after, outputs, Flags(outputs), end)
  {
  }

  lemma CompletedRan(gr: GroupRequirements, before: BaseState, after: BaseState, outputs: seq<CheckOutput>,
                     flags: seq<bool>, start: int, end: int)
    requires Ran(gr, before.(start := start), after, outputs, flags, end)
    ensures var now := after.(completed := true);
            && RanOnce(before, now, GroupPasses(gr, flags), start, end)
            && (if outputs == [] then Rejected(gr, before, now) else Concluded(gr, before, now, outputs))
  {
  }

  lemma ConclusionIsRight(gr: GroupRequirements, was: BaseState, outputs: seq<CheckOutput>, end: int)
    requires ValidRequirements(gr) && outputs != []
    ensures var now := Conclusion(gr, was, OfVerdict(outputs, true), OfVerdict(outputs, false), end);
            && Judged(was, now, Satisfied(gr, Flags(outputs)), end)
            && Concluded(gr, was, now, outputs)
  {
    CountingDecides(gr, outputs, Flags(outputs));
    assert was.errors + [] == was.errors;
  }

  class ShellGroup {
    const Commands: seq<ShellOperation>
    const Requirements: GroupRequirements
    const base: Base

    /** No two commands, and no two states, are the same object; a command may not have its state yet. */
    ghost predicate Valid()
      reads Commands
    {
      && (forall i, j :: 0 <= i < j < |Commands| ==> Commands[i] != Commands[j])
      && (forall i :: 0 <= i < |Commands| ==> Commands[i].base != base)
      && (forall i, j :: 0 <= i < j < |Commands| && Commands[i].base != null ==> Commands[i].base != Commands[j].base)
    }

    ghost function States(): set<Base>
      reads Commands
    {
      set i | 0 <= i < |Commands| && Commands[i].base != null :: Commands[i].base
    }

    constructor (commands: seq<ShellOperation>, requirements: GroupRequirements, base: Base)
      ensures Commands == commands && Requirements == requirements && this.base == base
    {
      Commands, Requirements, this.base := commands, requirements, base;
    }

    /** Command i reported outputs[i], for the first so many commands. */
    ghost predicate Reported(outputs: seq<CheckOutput>, xs: seq<Execution>)
      requires |outputs| <= |Commands| == |xs|
      reads Commands, States()
    {
      forall i :: 0 <= i < |outputs| ==>
        && Commands[i].base != null
        && outputs[i] == OutputOf(Commands[i].base.State())
        && outputs[i].passed == CommandPasses(Commands[i].shouldFail, xs[i])
    }

    /** Runs one command, giving it a state if it has none, and returns what it reports. */
    method RunCommand(idx: nat, x: Execution, now: int) returns (result: CheckOutput)
      requires Valid() && idx < |Commands|
      modifies Commands[idx], if Commands[idx].base != null then {Commands[idx].base} else {}
      ensures Valid()
      ensures Commands[idx].base != null && result == OutputOf(Commands[idx].base.State())
      ensures result.passed == CommandPasses(Commands[idx].shouldFail, x)
      ensures old(Commands[idx].base) == null ==> Commands[idx].base.JobName == base.TaskID + "-" + Decimal(idx)
      ensures Commands[idx].base == old(Commands[idx].base) || fresh(Commands[idx].base)
    {
      var cmd := Commands[idx];
      if cmd.base == null {
        cmd.base := new Base(base.TaskID + "-" + Decimal(idx), now);
      }
      cmd.Run(x, now, now);
      result := cmd.base.Output();
    }

    /** Runs the next command, without changing what the earlier ones report. */
    method RunNext(ghost outputs: seq<CheckOutput>, xs: seq<Execution>, idx: nat, now: int)
      returns (result: CheckOutput)
      requires Valid() && |xs| == |Commands| && idx == |outputs| < |Commands| && Reported(outputs, xs)
      modifies Commands[idx], if Commands[idx].base != null then {Commands[idx].base} else {}
      ensures Valid() && Reported(outputs + [result], xs)
      ensures Commands[idx].base == old(Commands[idx].base) || fresh(Commands[idx].base)
    {
      result := RunCommand(idx, xs[idx], now);
      forall i | 0 <= i < idx
        ensures Commands[i].base != null && Commands[i].base.State() == old(Commands[i].base.State())
      {
        assert Commands[i] != Commands[idx];
      }
    }

    /** The loop over the commands: it splits their outputs by verdict. */
    method RunCommands(xs: seq<Execution>, now: int)
      returns (success: seq<CheckOutput>, failure: seq<CheckOutput>, ghost outputs: seq<CheckOutput>)
      requires Valid() && |xs| == |Commands|
      modifies Commands, States()
      ensures Valid() && |outputs| == |Commands| && Reported(outputs, xs) && base.State() == old(base.State())
      ensures forall i :: 0 <= i < |Commands| ==>
        Commands[i].base == old(Commands[i].base) || (Commands[i].base != null && fresh(Commands[i].base))
      ensures success == OfVerdict(outputs, true) && failure == OfVerdict(outputs, false)
    {
      success, failure, outputs := [], [], [];
      for idx := 0 to |Commands|
        invariant Valid() && |outputs| == idx && Reported(outputs, xs) && base.State() == old(base.State())
        invariant forall i :: 0 <= i < |Commands| ==>
          Commands[i].base == old(Commands[i].base) || (Commands[i].base != null && fresh(Commands[i].base))
        invariant Split(success, failure, outputs)
      {
        var result := RunNext(outputs, xs, idx, now);
        SplitNext(success, failure, outputs, result);
        if result.passed {
          success := success + [result];
        } else {
          failure := failure + [result];
        }
        outputs := outputs + [result];
      }
    }

    /** Which commands pass. */
    function ExpectedFlags(xs: seq<Execution>): seq<bool>
      requires |xs| == |Commands|
    {
      seq(|xs|, i requires 0 <= i < |xs| => CommandPasses(Commands[i].shouldFail, xs[i]))
    }

    /** A command passes iff its exit result is the expected one. */
    lemma ExpectedMeans(xs: seq<Execution>)
      requires |xs| == |Commands|
      ensures |ExpectedFlags(xs)| == |Commands|
      ensures forall i :: 0 <= i < |Commands| ==>
        (ExpectedFlags(xs)[i] <==> if Commands[i].shouldFail then xs[i].err.Some? else xs[i].err.None?)
    {
    }

    /**
      Passes iff there are commands and their verdicts meet a valid requirement.  Otherwise, if the
      commands ran, the messages and errors are those of exactly the printable results.
     */
    method Run(xs: seq<Execution>, start: int, end: int) returns (ghost outputs: seq<CheckOutput>)
      requires Valid() && |xs| == |Commands|
      modifies base, Commands, States()
      ensures Valid()
      ensures RanOnce(old(base.State()), base.State(), GroupPasses(Requirements, ExpectedFlags(xs)), start, end)
      ensures |outputs| == (if ValidRequirements(Requirements) then |Commands| else 0) && Reported(outputs, xs)
      ensures forall i :: 0 <= i < |Commands| ==>
        Commands[i].base == old(Commands[i].base) || (Commands[i].base != null && fresh(Commands[i].base))
      ensures if outputs == [] then Rejected(Requirements, old(base.State()), base.State())
              else Concluded(Requirements, old(base.State()), base.State(), outputs)
    {
      base.StartTask(start);
      outputs := Judge(xs, end);
      CompletedRan(Requirements, old(base.State()), base.State(), outputs, ExpectedFlags(xs), start, end);
      Complete(outputs, xs);
    }

    /** The deferred end of Run; the commands stay as they are. */
    method Complete(ghost outputs: seq<CheckOutput>, ghost xs: seq<Execution>)
      requires Valid() && |outputs| <= |Commands| == |xs| && Reported(outputs, xs)
      modifies base
      ensures Valid() && Reported(outputs, xs)
      ensures base.State() == old(base.State()).(completed := true)
    {
      base.MarkComplete();
      forall i | 0 <= i < |outputs| ensures Commands[i].base.State() == old(Commands[i].base.State()) {
        assert Commands[i].base != base;
      }
    }

    /** Fails without valid requirements or without commands. */
    method Admit(end: int) returns (admitted: bool)
      modifies base
      ensures admitted <==> ValidRequirements(Requirements) && Commands != []
      ensures admitted ==> base.State() == old(base.State())
      ensures !admitted ==>
        Judged(old(base.State()), base.State(), false, end) && Rejected(Requirements, old(base.State()), base.State())
      ensures ValidRequirements(Requirements) && Commands == [] ==>
        base.Errors == old(base.Errors) + ["no files specified for '" + base.TaskID + "' (" + base.JobName + ") check"]
    {
      var err := Validate(Requirements);
      if err.Some? {
        base.SetState(false, end);
        base.AddError(err);
        return false;
      }
      if |Commands| == 0 {
        base.SetState(false, end);
        base.AddError(Some(NothingIn("no files specified", base.State())));
        assert "no files specified" + " for '" == "no files specified for '";
        return false;
      }
      return true;
    }

    /** The body of Run up to the deferred completion. */
    method Judge(xs: seq<Execution>, end: int) returns (ghost outputs: seq<CheckOutput>)
      requires Valid() && |xs| == |Commands|
      modifies base, Commands, States()
      ensures Valid()
      ensures |outputs| == (if ValidRequirements(Requirements) then |Commands| else 0) && Reported(outputs, xs)
      ensures forall i :: 0 <= i < |Commands| ==>
        Commands[i].base == old(Commands[i].base) || (Commands[i].base != null && fresh(Commands[i].base))
      ensures Ran(Requirements, old(base.State()), base.State(), outputs, ExpectedFlags(xs), end)
    {
      outputs := [];
      var admitted := Admit(end);
      if !admitted {
        RejectedRan(Requirements, old(base.State()), base.State(), ExpectedFlags(xs), end);
        return;
      }
      var success, failure;
      success, failure, outputs := RunCommands(xs, end);
      assert Flags(outputs) == ExpectedFlags(xs);
      Decide(success, failure, outputs, xs, end);
      ConcludedRan(Requirements, old(base.State()), base.State(), outputs, end);
    }

    /** Counts the two halves and concludes; the commands stay as they are. */
    method Decide(success: seq<CheckOutput>, failure: seq<CheckOutput>, ghost outputs: seq<CheckOutput>,
                  ghost xs: seq<Execution>, end: int)
      requires Valid() && |outputs| == |Commands| == |xs| && Reported(outputs, xs)
      requires success == OfVerdict(outputs, true) && failure == OfVerdict(outputs, false)
      requires ValidRequirements(Requirements) && outputs != []
      modifies base
      ensures Valid() && Reported(outputs, xs)
      ensures Judged(old(base.State()), base.State(), Satisfied(Requirements, Flags(outputs)), end)
      ensures Concluded(Requirements, old(base.State()), base.State(), outputs)
    {
      ConclusionIsRight(Requirements, base.State(), outputs, end);
      Conclude(success, failure, end);
      forall i | 0 <= i < |outputs| ensures Commands[i].base.State() == old(Commands[i].base.State()) {
        assert Commands[i].base != base;
      }
    }

    /** Records the verdict and, if it is negative, the printable messages and errors. */
    method Conclude(success: seq<CheckOutput>, failure: seq<CheckOutput>, end: int)
      modifies base
      ensures base.State() == Conclusion(Requirements, old(base.State()), success, failure, end)
    {
      var (result, wrong) := GetResults(Requirements, |success|, |failure|);
      base.SetState(result, end);
      base.AddError(wrong);
      if !result {
        var printable := if Requirements.none then success
                         else if Requirements.any || Requirements.one then success + failure
                         else failure;
        var messages, errs := Collect(printable);
        base.SetMessages(messages);
        base.AddError(Some(Join(errs, "\n")));
      }
    }

    /** One more run after others. */
    method RunAgain(ghost first: BaseState, ghost verdicts: seq<bool>, results: seq<Execution>, start: int, end: int)
      requires Valid() && |results| == |Commands| && RanThrough(first, base.State(), verdicts)
      modifies base, Commands, States()
      ensures Valid()
      ensures forall i :: 0 <= i < |Commands| ==>
        Commands[i].base == old(Commands[i].base) || (Commands[i].base != null && fresh(Commands[i].base))
      ensures RanThrough(first, base.State(), verdicts + [GroupPasses(Requirements, ExpectedFlags(results))])
    {
      ghost var before := base.State();
      var _ := Run(results, start, end);
      OneMoreRun(first, before, base.State(), verdicts, GroupPasses(Requirements, ExpectedFlags(results)), start, end);
    }

    /** Run again and again, with whatever results each time. */
    method RunRepeatedly(runs: seq<seq<Execution>>, times: seq<(int, int)>) returns (ghost verdicts: seq<bool>)
      requires |times| == |runs|
      requires Valid() && forall k :: 0 <= k < |runs| ==> |runs[k]| == |Commands|
      modifies base, Commands, States()
      ensures Valid()
      ensures |verdicts| == |runs|
      ensures forall k :: 0 <= k < |runs| ==>
        (verdicts[k] <==> GroupPasses(Requirements, ExpectedFlags(runs[k])))
      ensures AfterRuns(old(base.State()), base.State(), verdicts)
    {
      ghost var first := base.State();
      NoRuns(first);
      verdicts := [];
      for i := 0 to |runs|
        invariant |verdicts| == i && RanThrough(first, base.State(), verdicts)
        invariant forall k :: 0 <= k < i ==> (verdicts[k] <==> GroupPasses(Requirements, ExpectedFlags(runs[k])))
        invariant Valid()
        invariant forall k :: 0 <= k < |Commands| ==>
          Commands[k].base == old(Commands[k].base) || (Commands[k].base != null && fresh(Commands[k].base))
      {
        RunAgain(first, verdicts, runs[i], times[i].0, times[i].1);
        verdicts := verdicts + [GroupPasses(Requirements, ExpectedFlags(runs[i]))];
      }
      RunsTell(first, base.State(), verdicts);
    }
  }

  method Collect(printable: seq<CheckOutput>) returns (output: seq<string>, errs: seq<string>)
    ensures output == NonEmptyMessages(printable) && errs == NonEmptyErrors(printable)
  {
    output, errs := [], [];
    for i := 0 to |printable|
      invariant output == NonEmptyMessages(printable[..i]) && errs == NonEmptyErrors(printable[..i])
    {
      assert printable[..i + 1][..i] == printable[..i];
      if printable[i].message != "" {
        output := output + [printable[i].message];
      }
      if printable[i].error != "" {
        errs := errs + [printable[i].error];
      }
    }
    assert printable[..|printable|] == printable;
  }

  // ----- a group of files -----

  /** What os.Stat reports; only a definite absence counts as missing. */
  datatype Stat = Present | NotExist | OtherError

  function FileFlags(stats: seq<Stat>): seq<bool> {
    seq(|stats|, i requires 0 <= i < |stats| => !stats[i].NotExist?)
  }

  /** A file counts as existing unless it is known not to. */
  lemma FileByFile(names: seq<string>, stats: seq<Stat>, name: string, stat: Stat)
    requires |names| == |stats|
    ensures |FileFlags(stats)| == |stats|
    ensures forall i :: 0 <= i < |stats| ==> (FileFlags(stats)[i] <==> stats[i] != NotExist)
    ensures Select<string>([], FileFlags([]), true) == [] && Select<string>([], FileFlags([]), false) == []
    ensures stat != NotExist ==>
      && Select(names + [name], FileFlags(stats + [stat]), true) == Select(names, FileFlags(stats), true) + [name]
      && Select(names + [name], FileFlags(stats + [stat]), false) == Select(names, FileFlags(stats), false)
    ensures stat == NotExist ==>
      && Select(names + [name], FileFlags(stats + [stat]), true) == Select(names, FileFlags(stats), true)
      && Select(names + [name], FileFlags(stats + [stat]), false) == Select(names, FileFlags(stats), false) + [name]
  {
    assert FileFlags(stats + [stat]) == FileFlags(stats) + [stat != NotExist];
    SelectItemByItem(names, FileFlags(stats), name, stat != NotExist, true);
    SelectItemByItem(names, FileFlags(stats), name, stat != NotExist, false);
  }

  /** When a group of files passes, read off what os.Stat reports. */
  lemma FilesPassMeans(gr: GroupRequirements, stats: seq<Stat>)
    requires ValidRequirements(gr) && stats != []
    ensures gr.all ==> (GroupPasses(gr, FileFlags(stats)) <==> forall i :: 0 <= i < |stats| ==> stats[i] != NotExist)
    ensures gr.none ==> (GroupPasses(gr, FileFlags(stats)) <==> forall i :: 0 <= i < |stats| ==> stats[i] == NotExist)
    ensures gr.any ==> (GroupPasses(gr, FileFlags(stats)) <==> exists i :: 0 <= i < |stats| && stats[i] != NotExist)
    ensures gr.one ==>
      (GroupPasses(gr, FileFlags(stats)) <==>
       exists i :: 0 <= i < |stats| && stats[i] != NotExist
         && forall j :: 0 <= j < |stats| && stats[j] != NotExist ==> j == i)
  {
    var flags := FileFlags(stats);
    GroupPassesMeans(gr, flags);
    assert |flags| == |stats| && forall i :: 0 <= i < |stats| ==> (flags[i] <==> stats[i] != NotExist);
  }

  function FilesMessage(name: string, extant: seq<string>, missing: seq<string>): string {
    "'" + name + "' check. " + Decimal(|extant|) + " files exist, " + Decimal(|missing|)
    + " do not exist. [existing=(" + Join(extant, ", ") + "), missing=(" + Join(missing, ", ") + ")]"
  }

  const UNMET_FILES := "group of files do not satisfy check requirements"

  class FileGroup {
    const FileNames: seq<string>
    const Requirements: GroupRequirements
    const base: Base

    constructor (names: seq<string>, requirements: GroupRequirements, base: Base)
      ensures FileNames == names && Requirements == requirements && this.base == base
    {
      FileNames, Requirements, this.base := names, requirements, base;
    }

    /** stats are what os.Stat reports of the files, one after the other. */
    method Run(stats: seq<Stat>, start: int, end: int)
      requires |stats| == |FileNames|
      modifies base
      ensures !ValidRequirements(Requirements) || FileNames == [] ==> !base.WasSuccessful
      ensures ValidRequirements(Requirements) && FileNames != [] ==>
        && (Requirements.all ==> (base.WasSuccessful <==> forall i :: 0 <= i < |stats| ==> stats[i] != NotExist))
        && (Requirements.none ==> (base.WasSuccessful <==> forall i :: 0 <= i < |stats| ==> stats[i] == NotExist))
        && (Requirements.any ==> (base.WasSuccessful <==> exists i :: 0 <= i < |stats| && stats[i] != NotExist))
        && (Requirements.one ==>
              (base.WasSuccessful <==>
               exists i :: 0 <= i < |stats| && stats[i] != NotExist
                 && forall j :: 0 <= j < |stats| && stats[j] != NotExist ==> j == i))
        && (!base.WasSuccessful ==>
              var extant := Select(FileNames, FileFlags(stats), true);
              var missing := Select(FileNames, FileFlags(stats), false);
              base.Errors == old(base.Errors) + ["group of files do not satisfy check requirements"]
              && base.Message
                 == "'" + base.JobName + "' check. " + Decimal(|extant|) + " files exist, " + Decimal(|missing|)
                    + " do not exist. [existing=(" + Join(extant, ", ") + "), missing=(" + Join(missing, ", ") + ")]")
      ensures ValidRequirements(Requirements) && FileNames == [] ==>
        base.Errors == old(base.Errors) + ["no files specified for '" + base.TaskID + "' (" + base.JobName + ") check"]
      ensures var flags := FileFlags(stats);
              && RanOnce(old(base.State()), base.State(), GroupPasses(Requirements, flags), start, end)
              && (ValidRequirements(Requirements) && FileNames != [] && !GroupPasses(Requirements, flags) ==>
                    base.Message
                    == FilesMessage(base.JobName, Select(FileNames, flags, true), Select(FileNames, flags, false)))
              && (!ValidRequirements(Requirements) || FileNames == [] ==> base.Message == old(base.Message))
              && base.Errors == old(base.Errors)
                 + GroupErrors(Requirements, flags, NothingIn("no files specified", old(base.State())), UNMET_FILES)
    {
      base.StartTask(start);
      Judge(stats, end);
      base.MarkComplete();
      if ValidRequirements(Requirements) && FileNames != [] {
        FilesPassMeans(Requirements, stats);
      }
      assert "no files specified" + " for '" == "no files specified for '";
    }

    /** The body of Run up to the deferred completion. */
    method Judge(stats: seq<Stat>, end: int)
      requires |stats| == |FileNames|
      modifies base
      ensures var flags := FileFlags(stats);
              && Judged(old(base.State()), base.State(), GroupPasses(Requirements, flags), end)
              && (ValidRequirements(Requirements) && FileNames != [] && !GroupPasses(Requirements, flags) ==>
                    base.Message
                    == FilesMessage(base.JobName, Select(FileNames, flags, true), Select(FileNames, flags, false)))
              && (!ValidRequirements(Requirements) || FileNames == [] ==> base.Message == old(base.Message))
              && base.Errors == old(base.Errors)
                 + GroupErrors(Requirements, flags, NothingIn("no files specified", old(base.State())), UNMET_FILES)
    {
      var err := Validate(Requirements);
      if err.Some? {
        base.SetState(false, end);
        base.AddError(err);
        return;
      }
      if |FileNames| == 0 {
        base.SetState(false, end);
        base.AddError(Some(NothingIn("no files specified", base.State())));
        return;
      }
      var extant, missing := StatAll(stats);
      CountingDecides(Requirements, FileNames, FileFlags(stats));
      var (result, wrong) := GetResults(Requirements, |extant|, |missing|);
      base.SetState(result, end);
      base.AddError(wrong);
      if !result {
        base.SetMessage(FilesMessage(base.JobName, extant, missing));
        base.AddError(Some(UNMET_FILES));
      }
    }

    method StatAll(stats: seq<Stat>) returns (extant: seq<string>, missing: seq<string>)
      requires |stats| == |FileNames|
      ensures extant == Select(FileNames, FileFlags(stats), true)
      ensures missing == Select(FileNames, FileFlags(stats), false)
    {
      extant, missing := [], [];
      ghost var flags := FileFlags(stats);
      for i := 0 to |FileNames|
        invariant extant == Select(FileNames[..i], flags[..i], true)
        invariant missing == Select(FileNames[..i], flags[..i], false)
      {
        NextSelected(FileNames, flags, i);
        if stats[i].NotExist? {
          missing := missing + [FileNames[i]];
          continue;
        }
        extant := extant + [FileNames[i]];
      }
      assert FileNames[..|FileNames|] == FileNames && flags[..|FileNames|] == flags;
    }

    /** One more run after others. */
    method RunAgain(ghost first: BaseState, ghost verdicts: seq<bool>, results: seq<Stat>, start: int, end: int)
      requires |results| == |FileNames| && RanThrough(first, base.State(), verdicts)
      modifies base
      ensures RanThrough(first, base.State(), verdicts + [GroupPasses(Requirements, FileFlags(results))])
    {
      ghost var before := base.State();
      Run(results, start, end);
      OneMoreRun(first, before, base.State(), verdicts, GroupPasses(Requirements, FileFlags(results)), start, end);
    }

    /** Run again and again, with whatever results each time. */
    method RunRepeatedly(runs: seq<seq<Stat>>, times: seq<(int, int)>) returns (ghost verdicts: seq<bool>)
      requires |times| == |runs|
      requires forall k :: 0 <= k < |runs| ==> |runs[k]| == |FileNames|
      modifies base
      ensures |verdicts| == |runs|
      ensures forall k :: 0 <= k < |runs| ==>
        (verdicts[k] <==> GroupPasses(Requirements, FileFlags(runs[k])))
      ensures AfterRuns(old(base.State()), base.State(), verdicts)
    {
      ghost var first := base.State();
      NoRuns(first);
      verdicts := [];
      for i := 0 to |runs|
        invariant |verdicts| == i && RanThrough(first, base.State(), verdicts)
        invariant forall k :: 0 <= k < i ==> (verdicts[k] <==> GroupPasses(Requirements, FileFlags(runs[k])))
      {
        RunAgain(first, verdicts, runs[i], times[i].0, times[i].1);
        verdicts := verdicts + [GroupPasses(Requirements, FileFlags(runs[i]))];
      }
      RunsTell(first, base.State(), verdicts);
    }
  }

  lemma NextSelected<T>(items: seq<T>, flags: seq<bool>, i: nat)
    requires |items| == |flags| && i < |items|
    ensures forall v :: Select(items[..i + 1], flags[..i + 1], v)
                     == Select(items[..i], flags[..i], v) + (if flags[i] == v then [items[i]] else [])
  {
    assert items[..i + 1] == items[..i] + [items[i]] && flags[..i + 1] == flags[..i] + [flags[i]];
    SelectSnoc(items[..i], flags[..i], items[i], flags[i], true);
    SelectSnoc(items[..i], flags[..i], items[i], flags[i], false);
  }

  // ----- a group of packages -----

  /** What a package checker says of a package. */
  datatype Lookup = Lookup(installed: bool, message: string)

  function PackageFlags(found: seq<Lookup>): seq<bool> {
    seq(|found|, i requires 0 <= i < |found| => found[i].installed)
  }

  function PackageMessages(found: seq<Lookup>): seq<string> {
    seq(|found|, i requires 0 <= i < |found| => found[i].message)
  }

  lemma MessagesNext(found: seq<Lookup>, i: nat)
    requires i < |found|
    ensures PackageMessages(found[..i + 1]) == PackageMessages(found[..i]) + [found[i].message]
  {
  }

  /** When a group of packages passes, and what it shows, read off the look-ups. */
  lemma PackagesPassMeans(gr: GroupRequirements, found: seq<Lookup>)
    requires ValidRequirements(gr) && found != []
    ensures gr.all ==> (GroupPasses(gr, PackageFlags(found)) <==> forall i :: 0 <= i < |found| ==> found[i].installed)
    ensures gr.none ==> (GroupPasses(gr, PackageFlags(found)) <==> forall i :: 0 <= i < |found| ==> !found[i].installed)
    ensures gr.any ==> (GroupPasses(gr, PackageFlags(found)) <==> exists i :: 0 <= i < |found| && found[i].installed)
    ensures gr.one ==>
      (GroupPasses(gr, PackageFlags(found)) <==>
       exists i :: 0 <= i < |found| && found[i].installed
         && forall j :: 0 <= j < |found| && found[j].installed ==> j == i)
  {
    var flags := PackageFlags(found);
    GroupPassesMeans(gr, flags);
    assert |flags| == |found| && forall i :: 0 <= i < |found| ==> (flags[i] <==> found[i].installed);
  }

  const UNMET_PACKAGES := "group of packages does not satisfy check requirements"

  class PackageGroup {
    const Packages: seq<string>
    const Requirements: GroupRequirements
    const base: Base

    constructor (names: seq<string>, requirements: GroupRequirements, base: Base)
      ensures Packages == names && Requirements == requirements && this.base == base
    {
      Packages, Requirements, this.base := names, requirements, base;
    }

    /** found is what the package look-up says of the packages, one after the other. */
    method Run(found: seq<Lookup>, start: int, end: int)
      requires |found| == |Packages|
      modifies base
      ensures !ValidRequirements(Requirements) || Packages == [] ==> !base.WasSuccessful
      ensures ValidRequirements(Requirements) && Packages != [] ==>
        && (Requirements.all ==> (base.WasSuccessful <==> forall i :: 0 <= i < |found| ==> found[i].installed))
        && (Requirements.none ==> (base.WasSuccessful <==> forall i :: 0 <= i < |found| ==> !found[i].installed))
        && (Requirements.any ==> (base.WasSuccessful <==> exists i :: 0 <= i < |found| && found[i].installed))
        && (Requirements.one ==>
              (base.WasSuccessful <==>
               exists i :: 0 <= i < |found| && found[i].installed
                 && forall j :: 0 <= j < |found| && found[j].installed ==> j == i))
        && (!base.WasSuccessful ==>
              base.Errors == old(base.Errors) + ["group of packages does not satisfy check requirements"]
              && base.Message == Join(seq(|found|, i requires 0 <= i < |found| => found[i].message), "\n"))
      ensures ValidRequirements(Requirements) && Packages == [] ==>
        base.Errors == old(base.Errors) + ["no packages for '" + base.TaskID + "' (" + base.JobName + ") check"]
      ensures var flags := PackageFlags(found);
              && RanOnce(old(base.State()), base.State(), GroupPasses(Requirements, flags), start, end)
              && (ValidRequirements(Requirements) && Packages != [] && !GroupPasses(Requirements, flags) ==>
                    base.Message == Join(PackageMessages(found), "\n"))
              && (!ValidRequirements(Requirements) || Packages == [] ==> base.Message == old(base.Message))
              && base.Errors == old(base.Errors)
                 + GroupErrors(Requirements, flags, NothingIn("no packages", old(base.State())), UNMET_PACKAGES)
    {
      base.StartTask(start);
      Judge(found, end);
      base.MarkComplete();
      if ValidRequirements(Requirements) && Packages != [] {
        PackagesPassMeans(Requirements, found);
      }
      assert "no packages" + " for '" == "no packages for '";
      assert PackageMessages(found) == seq(|found|, i requires 0 <= i < |found| => found[i].message);
    }

    /** The body of Run up to the deferred completion. */
    method Judge(found: seq<Lookup>, end: int)
      requires |found| == |Packages|
      modifies base
      ensures var flags := PackageFlags(found);
              && Judged(old(base.State()), base.State(), GroupPasses(Requirements, flags), end)
              && (ValidRequirements(Requirements) && Packages != [] && !GroupPasses(Requirements, flags) ==>
                    base.Message == Join(PackageMessages(found), "\n"))
              && (!ValidRequirements(Requirements) || Packages == [] ==> base.Message == old(base.Message))
              && base.Errors == old(base.Errors)
                 + GroupErrors(Requirements, flags, NothingIn("no packages", old(base.State())), UNMET_PACKAGES)
    {
      var err := Validate(Requirements);
      if err.Some? {
        base.SetState(false, end);
        base.AddError(err);
        return;
      }
      if |Packages| == 0 {
        base.SetState(false, end);
        base.AddError(Some(NothingIn("no packages", base.State())));
        return;
      }
      var installed, missing, messages := LookUpAll(found);
      CountingDecides(Requirements, Packages, PackageFlags(found));
      var (result, wrong) := GetResults(Requirements, |installed|, |missing|);
      base.SetState(result, end);
      base.AddError(wrong);
      if !result {
        base.SetMessages(messages);
        base.AddError(Some(UNMET_PACKAGES));
      }
    }

    method LookUpAll(found: seq<Lookup>)
      returns (installed: seq<string>, missing: seq<string>, messages: seq<string>)
      requires |found| == |Packages|
      ensures installed == Select(Packages, PackageFlags(found), true)
      ensures missing == Select(Packages, PackageFlags(found), false)
      ensures messages == PackageMessages(found)
    {
      installed, missing, messages := [], [], [];
      ghost var flags := PackageFlags(found);
      for i := 0 to |Packages|
        invariant installed == Select(Packages[..i], flags[..i], true)
        invariant missing == Select(Packages[..i], flags[..i], false)
        invariant messages == PackageMessages(found[..i])
      {
        NextSelected(Packages, flags, i);
        if found[i].installed {
          installed := installed + [Packages[i]];
        } else {
          missing := missing + [Packages[i]];
        }
        MessagesNext(found, i);
        messages := messages + [found[i].message];
      }
      assert Packages[..|Packages|] == Packages && flags[..|Packages|] == flags && found[..|Packages|] == found;
    }

    /** One more run after others. */
    method RunAgain(ghost first: BaseState, ghost verdicts: seq<bool>, results: seq<Lookup>, start: int, end: int)
      requires |results| == |Packages| && RanThrough(first, base.State(), verdicts)
      modifies base
      ensures RanThrough(first, base.State(), verdicts + [GroupPasses(Requirements, PackageFlags(results))])
    {
      ghost var before := base.State();
      Run(results, start, end);
      OneMoreRun(first, before, base.State(), verdicts, GroupPasses(Requirements, PackageFlags(results)), start, end);
    }

    /** Run again and again, with whatever results each time. */
    method RunRepeatedly(runs: seq<seq<Lookup>>, times: seq<(int, int)>) returns (ghost verdicts: seq<bool>)
      requires |times| == |runs|
      requires forall k :: 0 <= k < |runs| ==> |runs[k]| == |Packages|
      modifies base
      ensures |verdicts| == |runs|
      ensures forall k :: 0 <= k < |runs| ==>
        (verdicts[k] <==> GroupPasses(Requirements, PackageFlags(runs[k])))
      ensures AfterRuns(old(base.State()), base.State(), verdicts)
    {
      ghost var first := base.State();
      NoRuns(first);
      verdicts := [];
      for i := 0 to |runs|
        invariant |verdicts| == i && RanThrough(first, base.State(), verdicts)
        invariant forall k :: 0 <= k < i ==> (verdicts[k] <==> GroupPasses(Requirements, PackageFlags(runs[k])))
      {
        RunAgain(first, verdicts, runs[i], times[i].0, times[i].1);
        verdicts := verdicts + [GroupPasses(Requirements, PackageFlags(runs[i]))];
      }
      RunsTell(first, base.State(), verdicts);
    }
  }

  // ----- containers -----

  /** What a containerChecker says of a host: an access error, or the programs it misses. */
  datatype Host = Unreachable(err: string) | Reached(missing: seq<string>)

  predicate HostPasses(h: Host) {
    h.Reached? && h.missing == []
  }

  /** The error that a host leaves behind, if any. */
  function HostErrors(name: string, h: Host): seq<string> {
    match h
    case Unreachable(err) => [err]
    case Reached(missing) =>
      if missing == [] then [] else ["host " + name + " is missing " + Decimal(|missing|) + " programs"]
  }

  function AllHostErrors(names: seq<string>, hosts: seq<Host>): seq<string>
    requires |names| == |hosts|
  {
    if names == [] then []
    else
      var n := |names| - 1;
      AllHostErrors(names[..n], hosts[..n]) + HostErrors(names[n], hosts[n])
  }

  function AllHostMessages(hosts: seq<Host>): seq<string> {
    if hosts == [] then []
    else
      var h := hosts[|hosts| - 1];
      AllHostMessages(hosts[..|hosts| - 1]) + (if h.Reached? then h.missing else [])
  }

  predicate HostsPass(hosts: seq<Host>) {
    forall i :: 0 <= i < |hosts| ==> HostPasses(hosts[i])
  }

  function NoHosts(s: BaseState): string {
    "no hostnames configured for " + s.id + " (" + s.name + ")"
  }

  class ContainerCheck {
    const Hostnames: seq<string>
    const base: Base

    constructor (names: seq<string>, base: Base)
      ensures Hostnames == names && this.base == base
    {
      Hostnames, this.base := names, base;
    }

    /** Passes iff there are hosts and all of them can be reached and have all programs. */
    method Run(hosts: seq<Host>, start: int, end: int)
      requires |hosts| == |Hostnames|
      modifies base
      ensures Hostnames == [] ==>
        base.Errors == old(base.Errors) + ["no hostnames configured for " + base.TaskID + " (" + base.JobName + ")"]
      ensures base.WasSuccessful <==>
        Hostnames != [] && forall i :: 0 <= i < |hosts| ==> hosts[i].Reached? && hosts[i].missing == []
      ensures RanOnce(old(base.State()), base.State(), Hostnames != [] && HostsPass(hosts), start, end)
      ensures base.Errors == old(base.Errors) +
        (if Hostnames == [] then [NoHosts(old(base.State()))] else AllHostErrors(Hostnames, hosts))
      ensures Hostnames != [] && !HostsPass(hosts) ==>
        base.Message == Join(AllHostMessages(hosts), "\n")
    {
      base.StartTask(start);
      Judge(hosts, end);
      base.MarkComplete();
    }

    /** The body of Run up to the deferred completion. */
    method Judge(hosts: seq<Host>, end: int)
      requires |hosts| == |Hostnames|
      modifies base
      ensures Judged(old(base.State()), base.State(), Hostnames != [] && HostsPass(hosts), end)
      ensures base.Errors == old(base.Errors) +
        (if Hostnames == [] then [NoHosts(old(base.State()))] else AllHostErrors(Hostnames, hosts))
      ensures Hostnames != [] && !HostsPass(hosts) ==>
        base.Message == Join(AllHostMessages(hosts), "\n")
    {
      if |Hostnames| == 0 {
        base.SetState(false, end);
        base.AddError(Some(NoHosts(base.State())));
        return;
      }
      var activeHosts, messages, failed := VisitAll(hosts, end);
      HostErrorsDecide(Hostnames, hosts);
      if activeHosts != |Hostnames| || |messages| != 0 {
        base.SetMessages(messages);
      }
      if !failed {
        base.SetState(true, end);
      }
    }

    method VisitAll(hosts: seq<Host>, now: int) returns (activeHosts: nat, messages: seq<string>, failed: bool)
      requires |hosts| == |Hostnames|
      modifies base
      ensures failed <==> AllHostErrors(Hostnames, hosts) != []
      ensures activeHosts == ActiveHosts(hosts) && messages == AllHostMessages(hosts)
      ensures var was, s := old(base.State()), base.State();
              && s == was.(errors := was.errors + AllHostErrors(Hostnames, hosts), passed := s.passed, end := s.end)
              && (failed ==> !s.passed && s.end == now)
    {
      activeHosts, messages, failed := 0, [], false;
      ghost var was := base.State();
      assert was.errors + [] == was.errors;
      for i := 0 to |Hostnames|
        invariant failed <==> AllHostErrors(Hostnames[..i], hosts[..i]) != []
        invariant activeHosts == ActiveHosts(hosts[..i]) && messages == AllHostMessages(hosts[..i])
        invariant base.State() == was.(errors := was.errors + AllHostErrors(Hostnames[..i], hosts[..i]),
                                       passed := base.WasSuccessful, end := base.end)
        invariant failed ==> !base.WasSuccessful && base.end == now
      {
        var host := Hostnames[i];
        assert Hostnames[..i + 1][..i] == Hostnames[..i] && hosts[..i + 1][..i] == hosts[..i];
        ConcatAssoc(was.errors, AllHostErrors(Hostnames[..i], hosts[..i]), HostErrors(host, hosts[i]));
        match hosts[i]
        case Unreachable(err) =>
          base.AddError(Some(err));
          base.SetState(false, now);
          failed := true;
        case Reached(missing) =>
          activeHosts := activeHosts + 1;
          messages := messages + missing;
          if |missing| > 0 {
            base.AddError(Some("host " + host + " is missing " + Decimal(|missing|) + " programs"));
            base.SetState(false, now);
            failed := true;
          }
      }
      assert Hostnames[..|Hostnames|] == Hostnames && hosts[..|hosts|] == hosts;
    }

    /** One more run after others. */
    method RunAgain(ghost first: BaseState, ghost verdicts: seq<bool>, results: seq<Host>, start: int, end: int)
      requires |results| == |Hostnames| && RanThrough(first, base.State(), verdicts)
      modifies base
      ensures RanThrough(first, base.State(), verdicts + [Hostnames != [] && HostsPass(results)])
    {
      ghost var before := base.State();
      Run(results, start, end);
      OneMoreRun(first, before, base.State(), verdicts, Hostnames != [] && HostsPass(results), start, end);
    }

    /** Run again and again, with whatever results each time. */
    method RunRepeatedly(runs: seq<seq<Host>>, times: seq<(int, int)>) returns (ghost verdicts: seq<bool>)
      requires |times| == |runs|
      requires forall k :: 0 <= k < |runs| ==> |runs[k]| == |Hostnames|
      modifies base
      ensures |verdicts| == |runs|
      ensures forall k :: 0 <= k < |runs| ==>
        (verdicts[k] <==> Hostnames != [] && HostsPass(runs[k]))
      ensures AfterRuns(old(base.State()), base.State(), verdicts)
    {
      ghost var first := base.State();
      NoRuns(first);
      verdicts := [];
      for i := 0 to |runs|
        invariant |verdicts| == i && RanThrough(first, base.State(), verdicts)
        invariant forall k :: 0 <= k < i ==> (verdicts[k] <==> Hostnames != [] && HostsPass(runs[k]))
      {
        RunAgain(first, verdicts, runs[i], times[i].0, times[i].1);
        verdicts := verdicts + [Hostnames != [] && HostsPass(runs[i])];
      }
      RunsTell(first, base.State(), verdicts);
    }
  }

  function ActiveHosts(hosts: seq<Host>): nat {
    if hosts == [] then 0
    else ActiveHosts(hosts[..|hosts| - 1]) + (if hosts[|hosts| - 1].Reached? then 1 else 0)
  }

  /** Host by host: an unreachable one leaves its error, one that misses programs leaves a count and their messages. */
  lemma HostByHost(names: seq<string>, hosts: seq<Host>, name: string, err: string, missing: seq<string>)
    requires |names| == |hosts|
    ensures AllHostErrors([], []) == [] && AllHostMessages([]) == []
    ensures AllHostErrors(names + [name], hosts + [Unreachable(err)]) == AllHostErrors(names, hosts) + [err]
    ensures missing == [] ==> AllHostErrors(names + [name], hosts + [Reached(missing)]) == AllHostErrors(names, hosts)
    ensures missing != [] ==>
      AllHostErrors(names + [name], hosts + [Reached(missing)])
      == AllHostErrors(names, hosts) + ["host " + name + " is missing " + Decimal(|missing|) + " programs"]
    ensures AllHostMessages(hosts + [Unreachable(err)]) == AllHostMessages(hosts)
    ensures AllHostMessages(hosts + [Reached(missing)]) == AllHostMessages(hosts) + missing
  {
    assert (names + [name])[..|names|] == names;
    assert (hosts + [Unreachable(err)])[..|names|] == hosts && (hosts + [Reached(missing)])[..|names|] == hosts;
  }

  lemma HostsPassSnoc(hosts: seq<Host>)
    requires hosts != []
    ensures HostsPass(hosts) <==> HostsPass(hosts[..|hosts| - 1]) && HostPasses(hosts[|hosts| - 1])
  {
    assert hosts == hosts[..|hosts| - 1] + [hosts[|hosts| - 1]];
  }

  lemma {:induction false} HostErrorsCount(names: seq<string>, hosts: seq<Host>)
    requires |names| == |hosts|
    ensures AllHostErrors(names, hosts) == [] <==> HostsPass(hosts)
  {
    if names == [] {
    } else {
      HostErrorsCount(names[..|names| - 1], hosts[..|names| - 1]);
      HostsPassSnoc(hosts);
    }
  }

  lemma {:induction false} HostMessagesCount(hosts: seq<Host>)
    ensures ActiveHosts(hosts) <= |hosts|
    ensures ActiveHosts(hosts) == |hosts| && AllHostMessages(hosts) == [] <==> HostsPass(hosts)
  {
    if hosts == [] {
    } else {
      HostMessagesCount(hosts[..|hosts| - 1]);
      HostsPassSnoc(hosts);
    }
  }

  /** Errors, active hosts and messages all tell whether every host passed. */
  lemma HostErrorsDecide(names: seq<string>, hosts: seq<Host>)
    requires |names| == |hosts|
    ensures AllHostErrors(names, hosts) == [] <==> HostsPass(hosts)
    ensures ActiveHosts(hosts) <= |hosts|
    ensures ActiveHosts(hosts) == |hosts| && AllHostMessages(hosts) == [] <==> HostsPass(hosts)
  {
    HostErrorsCount(names, hosts);
    HostMessagesCount(hosts);
  }
}
