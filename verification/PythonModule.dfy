/** The check that a Python module's version lies in a window. */
module PythonModule {
  import opened Common
  import opened CheckBase
  import opened Checks
  import opened SemVer

  // ----- relationships -----

  function CompareVersions(rel: string, actual: Version, expected: Version): Result<bool, string> {
    var c := Compare(actual, expected);
    match rel
    case "gte" => Ok(c >= 0)
    case "" => Ok(c >= 0)
    case "lte" => Ok(c <= 0)
    case "lt" => Ok(c < 0)
    case "gt" => Ok(c > 0)
    case "eq" => Ok(c == 0)
    case _ => Err("relationship '" + rel + "' is not valid")
  }

  predicate ValidRelationship(rel: string) {
    rel in ["", "gte", "lte", "lt", "gt", "eq"]
  }

  predicate Relates(rel: string, actual: Version, expected: Version) {
    CompareVersions(rel, actual, expected) == Ok(true)
  }

  /** The relationships, read off precedence and not off the comparison function. */
  lemma CompareVersionsIsPrecedence(rel: string, actual: Version, expected: Version)
    ensures CompareVersions(rel, actual, expected).Err? <==> !ValidRelationship(rel)
    ensures rel in ["", "gte"] ==> (Relates(rel, actual, expected) <==> !Lower(actual, expected))
    ensures rel == "gt" ==> (Relates(rel, actual, expected) <==> Lower(expected, actual))
    ensures rel == "lte" ==> (Relates(rel, actual, expected) <==> !Lower(expected, actual))
    ensures rel == "lt" ==> (Relates(rel, actual, expected) <==> Lower(actual, expected))
    ensures rel == "eq" ==> (Relates(rel, actual, expected) <==> actual == expected.(build := actual.build))
  {
    CompareIsPrecedence(actual, expected);
    PrecedenceIsTotalPreorder(actual, actual, expected);
    if Compare(actual, expected) == 0 {
      EqualPrecedence(actual, expected);
    }
  }

  // ----- the window -----

  /** The relationships a check uses once its empty ones have got their defaults. */
  datatype Setting = Setting(relationship: string, minRelationship: string, interpreter: string)

  function Defaulted(s: Setting, minVersion: string): Setting {
    Setting(
      if s.relationship != "" then s.relationship else if minVersion != "" then "lte" else "gte",
      if s.minRelationship != "" then s.minRelationship else "gte",
      if s.interpreter != "" then s.interpreter else "python")
  }

  predicate SettingIsValid(s: Setting, min: Option<Version>) {
    ValidRelationship(s.relationship) && (min.Some? ==> ValidRelationship(s.minRelationship))
  }

  /** The versions that a check accepts, with an optional lower end of the window. */
  predicate Accepts(s: Setting, expected: Version, min: Option<Version>, v: Version) {
    && Relates(s.relationship, v, expected)
    && (min.Some? ==> Relates(s.minRelationship, v, min.value))
  }

  lemma {:induction false} RelationshipIsConvex(rel: string, expected: Version, u: Version, v: Version, w: Version)
    requires Compare(u, v) <= 0 && Compare(v, w) <= 0
    requires Relates(rel, u, expected) && Relates(rel, w, expected)
    ensures Relates(rel, v, expected)
  {
    PrecedenceIsTotalPreorder(expected, u, v);
    PrecedenceIsTotalPreorder(v, w, expected);
    PrecedenceIsTotalPreorder(u, v, expected);
    PrecedenceIsTotalPreorder(expected, v, w);
    PrecedenceIsTotalPreorder(u, expected, v);
    PrecedenceIsTotalPreorder(w, expected, v);
  }

  /** A version between two accepted ones is accepted. */
  lemma WindowIsConvex(s: Setting, expected: Version, min: Option<Version>, u: Version, v: Version, w: Version)
    requires Compare(u, v) <= 0 && Compare(v, w) <= 0
    requires Accepts(s, expected, min, u) && Accepts(s, expected, min, w)
    ensures Accepts(s, expected, min, v)
  {
    RelationshipIsConvex(s.relationship, expected, u, v, w);
    if min.Some? {
      RelationshipIsConvex(s.minRelationship, min.value, u, v, w);
    }
  }

  /** Acceptance does not see build metadata. */
  lemma WindowIgnoresBuild(s: Setting, expected: Version, min: Option<Version>, v: Version, w: Version)
    requires Compare(v, w) == 0
    ensures Accepts(s, expected, min, v) <==> Accepts(s, expected, min, w)
  {
    EqualPrecedence(v, w);
  }

  /**
    With no relationships given, a minimum makes the window closed at both ends; it is empty iff the
    minimum is above the expected version. Without a minimum the window is open above.
   */
  lemma DefaultWindow(interpreter: string, minVersion: string, expected: Version, min: Version, v: Version)
    ensures var s := Defaulted(Setting("", "", interpreter), minVersion);
            && (minVersion != "" ==>
                  (Accepts(s, expected, Some(min), v) <==> !Lower(v, min) && !Lower(expected, v)))
            && (minVersion == "" ==> (Accepts(s, expected, None, v) <==> !Lower(v, expected)))
            && (minVersion != "" && Lower(expected, min) ==> !Accepts(s, expected, Some(min), v))
            && (minVersion != "" && !Lower(expected, min) ==> Accepts(s, expected, Some(min), min))
  {
    CompareVersionsIsPrecedence("gte", v, min);
    CompareVersionsIsPrecedence("lte", v, expected);
    CompareVersionsIsPrecedence("gte", v, expected);
    CompareVersionsIsPrecedence("lte", min, expected);
    PrecedenceIsTotalPreorder(min, v, expected);
    CompareIsPrecedence(expected, min);
    PrecedenceIsTotalPreorder(min, expected, min);
    PrecedenceIsTotalPreorder(min, min, min);
  }

  /** A relationship, read off precedence. */
  ghost predicate Stands(rel: string, actual: Version, expected: Version) {
    match rel
    case "gte" => !Lower(actual, expected)
    case "" => !Lower(actual, expected)
    case "gt" => Lower(expected, actual)
    case "lte" => !Lower(expected, actual)
    case "lt" => Lower(actual, expected)
    case "eq" => !Lower(actual, expected) && !Lower(expected, actual)
    case _ => false
  }

  lemma RelatesStands(rel: string, actual: Version, expected: Version)
    ensures Relates(rel, actual, expected) <==> Stands(rel, actual, expected)
  {
    CompareIsPrecedence(actual, expected);
  }

  /** Both ends of the window, for every pair of relationships. */
  lemma WindowByPrecedence(s: Setting, expected: Version, min: Version, v: Version)
    ensures Accepts(s, expected, None, v) <==> Stands(s.relationship, v, expected)
    ensures Accepts(s, expected, Some(min), v) <==>
      Stands(s.relationship, v, expected) && Stands(s.minRelationship, v, min)
    ensures s.relationship == "gte" ==> (Stands(s.relationship, v, expected) <==> !Lower(v, expected))
    ensures s.relationship == "gt" ==> (Stands(s.relationship, v, expected) <==> Lower(expected, v))
    ensures s.relationship == "lte" ==> (Stands(s.relationship, v, expected) <==> !Lower(expected, v))
    ensures s.relationship == "lt" ==> (Stands(s.relationship, v, expected) <==> Lower(v, expected))
    ensures s.relationship == "eq" ==>
      (Stands(s.relationship, v, expected) <==> !Lower(v, expected) && !Lower(expected, v))
    ensures s.minRelationship == "gte" ==> (Stands(s.minRelationship, v, min) <==> !Lower(v, min))
    ensures s.minRelationship == "gt" ==> (Stands(s.minRelationship, v, min) <==> Lower(min, v))
    ensures s.minRelationship == "lte" ==> (Stands(s.minRelationship, v, min) <==> !Lower(min, v))
    ensures s.minRelationship == "lt" ==> (Stands(s.minRelationship, v, min) <==> Lower(v, min))
    ensures s.minRelationship == "eq" ==> (Stands(s.minRelationship, v, min) <==> !Lower(v, min) && !Lower(min, v))
  {
    RelatesStands(s.relationship, v, expected);
    RelatesStands(s.minRelationship, v, min);
  }

  // ----- the check -----

  /** What the interpreter printed, together with how versions are read and written. */
  datatype Outside = Outside(
    parse: string -> Result<Version, string>,
    format: Version -> string,
    run: seq<string> -> Execution)

  function CommandArgs(interpreter: string, mod: string, statement: string): seq<string> {
    [interpreter, "-c", "import " + mod + "; print(" + statement + ")"]
  }

  /** What the check has to work with when every version it needs can be read. */
  datatype Reading = Reading(expected: Version, min: Option<Version>, actual: Version)

  function ReadVersions(o: Outside, version: string, minVersion: string, x: Execution): Option<Reading> {
    var expected, min, actual := o.parse(version), o.parse(minVersion), o.parse(Trim(x.output));
    if expected.Err? || (minVersion != "" && min.Err?) || x.err.Some? || actual.Err? then None
    else Some(Reading(expected.value, if minVersion != "" then Some(min.value) else None, actual.value))
  }

  predicate Passes(s: Setting, r: Option<Reading>) {
    r.Some? && Accepts(s, r.value.expected, r.value.min, r.value.actual)
  }

  /** The verdict, without the functions that read the versions. */
  lemma PassesMeans(o: Outside, s: Setting, version: string, minVersion: string, x: Execution)
    ensures var expected, min, actual := o.parse(version), o.parse(minVersion), o.parse(Trim(x.output));
            Passes(s, ReadVersions(o, version, minVersion, x)) <==>
              && expected.Ok? && (minVersion != "" ==> min.Ok?) && x.err.None? && actual.Ok?
              && Stands(s.relationship, actual.value, expected.value)
              && (minVersion != "" ==> Stands(s.minRelationship, actual.value, min.value))
  {
    var expected, min, actual := o.parse(version), o.parse(minVersion), o.parse(Trim(x.output));
    if expected.Ok? && actual.Ok? {
      RelatesStands(s.relationship, actual.value, expected.value);
      if min.Ok? {
        RelatesStands(s.minRelationship, actual.value, min.value);
      }
    }
  }

  function OutOfWindow(o: Outside, s: Setting, r: Reading): string {
    o.format(r.actual) + " " + s.relationship + " " + o.format(r.expected) + "\n"
  }

  /** The error and the message of a check that cannot read a version it needs. */
  function WhyUnread(o: Outside, version: string, minVersion: string, mod: string, x: Execution): (string, string)
    requires ReadVersions(o, version, minVersion, x).None?
  {
    if o.parse(version).Err? then
      (o.parse(version).error, "could not parse expected version '" + version + "'")
    else if minVersion != "" && o.parse(minVersion).Err? then
      (o.parse(minVersion).error, "could not parse expected version '" + version + "'")
    else if x.err.Some? then
      (x.err.value, Trim(x.output))
    else
      (o.parse(Trim(x.output)).error, "could not parse version '" + Trim(x.output) + "' from module '" + mod + "'")
  }

  /** The first thing that fails decides; a minimum that cannot be read is reported under the expected version. */
  lemma WhyUnreadMeans(o: Outside, version: string, minVersion: string, mod: string, x: Execution)
    ensures ReadVersions(o, version, minVersion, x).None? <==>
      || o.parse(version).Err? || (minVersion != "" && o.parse(minVersion).Err?)
      || x.err.Some? || o.parse(Trim(x.output)).Err?
    ensures ReadVersions(o, version, minVersion, x).None? ==>
      var (error, message) := WhyUnread(o, version, minVersion, mod, x);
      && (o.parse(version).Err? ==>
            error == o.parse(version).error && message == "could not parse expected version '" + version + "'")
      && (o.parse(version).Ok? && minVersion != "" && o.parse(minVersion).Err? ==>
            error == o.parse(minVersion).error && message == "could not parse expected version '" + version + "'")
      && (o.parse(version).Ok? && (minVersion != "" ==> o.parse(minVersion).Ok?) && x.err.Some? ==>
            error == x.err.value && message == Trim(x.output))
      && (o.parse(version).Ok? && (minVersion != "" ==> o.parse(minVersion).Ok?) && x.err.None? ==>
            error == o.parse(Trim(x.output)).error
            && message == "could not parse version '" + Trim(x.output) + "' from module '" + mod + "'")
  {
  }

  /** What a comparison leaves behind when it fails: the window's message unless a relationship is unknown. */
  ghost predicate ComparisonExplained(o: Outside, s: Setting, r: Reading, before: BaseState, after: BaseState) {
    !Accepts(s, r.expected, r.min, r.actual) ==>
      if SettingIsValid(s, r.min) then
        && after.message == OutOfWindow(o, s, r)
        && after.errors == before.errors + ["check failed: " + OutOfWindow(o, s, r)]
      else after.message == before.message && |after.errors| == |before.errors| + 1
  }

  class PythonModuleVersion {
    const Module: string
    const Statement: string
    const Version: string
    const MinVersion: string
    var MinRelationship: string
    var PythonInterpreter: string
    var Relationship: string
    const base: Base

    ghost function Settings(): Setting
      reads this
    {
      Setting(Relationship, MinRelationship, PythonInterpreter)
    }

    constructor (mod: string, statement: string, version: string, minVersion: string, s: Setting, base: Base)
      ensures Module == mod && Statement == statement && Version == version && MinVersion == minVersion
      ensures Settings() == s && this.base == base
    {
      Module, Statement, Version, MinVersion, this.base := mod, statement, version, minVersion, base;
      Relationship, MinRelationship, PythonInterpreter := s.relationship, s.minRelationship, s.interpreter;
    }

    /** Fills in defaults. Relationships that are not valid are left for Run to find. */
    method Validate() returns (err: Option<string>)
      modifies this
      ensures err == None && Settings() == Defaulted(old(Settings()), MinVersion)
      ensures PythonInterpreter == if old(PythonInterpreter) != "" then old(PythonInterpreter) else "python"
      ensures Relationship ==
        if old(Relationship) != "" then old(Relationship) else if MinVersion != "" then "lte" else "gte"
      ensures MinRelationship == if old(MinRelationship) != "" then old(MinRelationship) else "gte"
    {
      if PythonInterpreter == "" {
        PythonInterpreter := "python";
      }
      if Relationship == "" {
        Relationship := if MinVersion != "" then "lte" else "gte";
      }
      if MinRelationship == "" {
        MinRelationship := "gte";
      }
      err := None;
    }

    function Printed(o: Outside, s: Setting): Execution {
      o.run(CommandArgs(s.interpreter, Module, Statement))
    }

    ghost predicate Verdict(o: Outside, s: Setting) {
      Passes(s, ReadVersions(o, Version, MinVersion, Printed(o, s)))
    }

    /** Every failure is explained by its cause. */
    ghost predicate Explained(o: Outside, s: Setting, before: BaseState, after: BaseState) {
      match ReadVersions(o, Version, MinVersion, Printed(o, s))
      case Some(r) => ComparisonExplained(o, s, r, before, after)
      case None =>
        var (error, message) := WhyUnread(o, Version, MinVersion, Module, Printed(o, s));
        after.errors == before.errors + [error] && after.message == message
    }

    method Run(o: Outside, start: int, end: int)
      modifies this, base
      ensures Settings() == Defaulted(old(Settings()), MinVersion)
      ensures var x := o.run([PythonInterpreter, "-c", "import " + Module + "; print(" + Statement + ")"]);
              var expected, min, actual := o.parse(Version), o.parse(MinVersion), o.parse(Trim(x.output));
              base.WasSuccessful <==>
                && expected.Ok? && (MinVersion != "" ==> min.Ok?) && x.err.None? && actual.Ok?
                && Stands(Relationship, actual.value, expected.value)
                && (MinVersion != "" ==> Stands(MinRelationship, actual.value, min.value))
      ensures RanOnce(old(base.State()), base.State(), Verdict(o, Settings()), start, end)
      ensures Explained(o, Settings(), old(base.State()), base.State())
    {
      base.StartTask(start);
      Judge(o, end);
      base.MarkComplete();
      PassesMeans(o, Settings(), Version, MinVersion, Printed(o, Settings()));
    }

    /** The body of Run up to the deferred completion. */
    method Judge(o: Outside, end: int)
      modifies this, base
      ensures Settings() == Defaulted(old(Settings()), MinVersion)
      ensures Judged(old(base.State()), base.State(), Verdict(o, Settings()), end)
      ensures Explained(o, Settings(), old(base.State()), base.State())
    {
      var invalid := Validate();
      // Validate never fails, so the branch for its error is dead.
      assert invalid == None;
      var r := ReadAll(o, end);
      if r.Some? {
        Compare(o, r.value, end);
      }
    }

    /** The middle of Run: it reads all versions, or fails. */
    method ReadAll(o: Outside, end: int) returns (r: Option<Reading>)
      modifies base
      ensures r == ReadVersions(o, Version, MinVersion, Printed(o, Settings()))
      ensures r.Some? ==> base.State() == old(base.State())
      ensures r.None? ==>
        Judged(old(base.State()), base.State(), false, end) && Explained(o, Settings(), old(base.State()), base.State())
    {
      var expected := o.parse(Version);
      if expected.Err? {
        base.SetState(false, end);
        base.AddError(Some(expected.error));
        base.SetMessage("could not parse expected version '" + Version + "'");
        return None;
      }
      var minExpected: Option<Version> := None;
      if MinVersion != "" {
        var min := o.parse(MinVersion);
        if min.Err? {
          base.SetState(false, end);
          base.AddError(Some(min.error));
          base.SetMessage("could not parse expected version '" + Version + "'");
          return None;
        }
        minExpected := Some(min.value);
      }
      var x := o.run(CommandArgs(PythonInterpreter, Module, Statement));
      var version := Trim(x.output);
      if x.err.Some? {
        base.SetState(false, end);
        base.AddError(x.err);
        base.SetMessage(version);
        return None;
      }
      var parsed := o.parse(version);
      if parsed.Err? {
        base.SetState(false, end);
        base.AddError(Some(parsed.error));
        base.SetMessage("could not parse version '" + version + "' from module '" + Module + "'");
        return None;
      }
      return Some(Reading(expected.value, minExpected, parsed.value));
    }

    /** The end of Run, once all versions are known. */
    method Compare(o: Outside, r: Reading, end: int)
      modifies base
      ensures Judged(old(base.State()), base.State(), Accepts(Settings(), r.expected, r.min, r.actual), end)
      ensures ComparisonExplained(o, Settings(), r, old(base.State()), base.State())
      ensures !base.WasSuccessful && SettingIsValid(Settings(), r.min) ==>
          base.Message == o.format(r.actual) + " " + Relationship + " " + o.format(r.expected) + "\n"
          && base.Errors == old(base.Errors) + ["check failed: " + base.Message]
      ensures base.WasSuccessful <==>
        && Stands(Relationship, r.actual, r.expected)
        && (r.min.Some? ==> Stands(MinRelationship, r.actual, r.min.value))
    {
      RelatesStands(Relationship, r.actual, r.expected);
      if r.min.Some? {
        RelatesStands(MinRelationship, r.actual, r.min.value);
      }
      var result := CompareVersions(Relationship, r.actual, r.expected);
      if result.Err? {
        base.SetState(false, end);
        base.AddError(Some(result.error));
        return;
      }
      var ok := result.value;
      if r.min.Some? {
        var gteMin := CompareVersions(MinRelationship, r.actual, r.min.value);
        if gteMin.Err? {
          base.SetState(false, end);
          base.AddError(Some(gteMin.error));
          return;
        }
        ok := ok && gteMin.value;
      }
      if !ok {
        base.SetState(false, end);
        var msg := OutOfWindow(o, Setting(Relationship, MinRelationship, PythonInterpreter), r);
        base.AddError(Some("check failed: " + msg));
        base.SetMessage(msg);
        return;
      }
      base.SetState(true, end);
    }

    /** One more run after others. */
    method RunAgain(ghost first: BaseState, ghost verdicts: seq<bool>, o: Outside, start: int, end: int)
      requires RanThrough(first, base.State(), verdicts)
      modifies this, base
      ensures Settings() == Defaulted(old(Settings()), MinVersion)
      ensures RanThrough(first, base.State(), verdicts + [Verdict(o, Settings())])
    {
      ghost var before := base.State();
      Run(o, start, end);
      OneMoreRun(first, before, base.State(), verdicts, Verdict(o, Settings()), start, end);
    }

    /** Run again and again, with whatever results each time. */
    method RunRepeatedly(outs: seq<Outside>, times: seq<(int, int)>) returns (ghost verdicts: seq<bool>)
      requires |times| == |outs|
      modifies this, base
      ensures |verdicts| == |outs|
      ensures forall k :: 0 <= k < |outs| ==>
        (verdicts[k] <==> Verdict(outs[k], Defaulted(old(Settings()), MinVersion)))
      ensures Settings() == if outs == [] then old(Settings()) else Defaulted(old(Settings()), MinVersion)
      ensures AfterRuns(old(base.State()), base.State(), verdicts)
    {
      ghost var first := base.State();
      NoRuns(first);
      verdicts := [];
      DefaultsSettle(Settings(), MinVersion);
      for i := 0 to |outs|
        invariant |verdicts| == i && RanThrough(first, base.State(), verdicts)
        invariant forall k :: 0 <= k < i ==> (verdicts[k] <==> Verdict(outs[k], Defaulted(old(Settings()), MinVersion)))
        invariant Settings() == if i == 0 then old(Settings()) else Defaulted(old(Settings()), MinVersion)
      {
        RunAgain(first, verdicts, outs[i], times[i].0, times[i].1);
        verdicts := verdicts + [Verdict(outs[i], Defaulted(old(Settings()), MinVersion))];
      }
      RunsTell(first, base.State(), verdicts);
    }
  }

  /**
    A relationship that is not valid makes the check fail whatever the interpreter prints; a minimum
    relationship that is not valid does so iff there is a minimum version.
   */
  lemma InvalidRelationshipFails(o: Outside, s: Setting, version: string, minVersion: string, x: Execution)
    ensures !ValidRelationship(s.relationship) ==>
      !Passes(Defaulted(s, minVersion), ReadVersions(o, version, minVersion, x))
    ensures !ValidRelationship(s.minRelationship) && minVersion != "" ==>
      !Passes(Defaulted(s, minVersion), ReadVersions(o, version, minVersion, x))
    ensures minVersion == "" ==>
      (Passes(Defaulted(s, minVersion), ReadVersions(o, version, minVersion, x)) <==>
       Passes(Defaulted(s.(minRelationship := "gte"), minVersion), ReadVersions(o, version, minVersion, x)))
  {
  }

  /** Later runs of a check use the settings that the first one filled in. */
  lemma DefaultsSettle(s: Setting, minVersion: string)
    ensures Defaulted(Defaulted(s, minVersion), minVersion) == Defaulted(s, minVersion)
  {
  }
}
