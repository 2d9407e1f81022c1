/** The state that every check composes, and what one or many runs do to it. */
module CheckBase {
  import opened Common
  import opened Greenbay

  function Join(parts: seq<string>, sep: string): string {
    if parts == [] then ""
    else if |parts| == 1 then parts[0]
    else parts[0] + sep + Join(parts[1..], sep)
  }

  /** Joining puts the separator between neighbours. */
  lemma {:induction false} JoinSnoc(parts: seq<string>, last: string, sep: string)
    ensures Join([], sep) == "" && Join([last], sep) == last
    ensures parts != [] ==> Join(parts + [last], sep) == Join(parts, sep) + sep + last
  {
    if |parts| <= 1 {
      if parts != [] {
        assert (parts + [last])[1..] == [last];
      }
    } else {
      JoinSnoc(parts[1..], last, sep);
      assert (parts + [last])[1..] == parts[1..] + [last];
      assert parts[0] + sep + (Join(parts[1..], sep) + sep + last)
          == (parts[0] + sep + Join(parts[1..], sep)) + sep + last;
    }
  }

  function Decimal(n: nat): string {
    var digit := [Digit(n % 10)];
    if n < 10 then digit else Decimal(n / 10) + digit
  }

  const SPACES := "\r\t\n "

  function TrimLeft(s: string): string {
    if s != "" && s[0] in SPACES then TrimLeft(s[1..]) else s
  }

  function TrimRight(s: string): string {
    if s != "" && s[|s| - 1] in SPACES then TrimRight(s[..|s| - 1]) else s
  }

  function Trim(s: string): string {
    TrimRight(TrimLeft(s))
  }

  /** The number that some digits write. */
  function ValueOf(digits: string): int {
    if digits == "" then 0
    else 10 * ValueOf(digits[..|digits| - 1]) + (digits[|digits| - 1] as int - '0' as int)
  }

  lemma ValueSnoc(digits: string, c: char)
    ensures ValueOf(digits + [c]) == 10 * ValueOf(digits) + (c as int - '0' as int)
  {
    assert (digits + [c])[..|digits|] == digits;
  }

  function Digit(k: nat): char
    requires k < 10
  {
    "0123456789"[k]
  }

  lemma DigitValue(k: nat)
    requires k < 10
    ensures Digit(k) as int - '0' as int == k && '0' <= Digit(k) <= '9'
  {
  }

  lemma {:induction false} DecimalIsValue(n: nat)
    ensures ValueOf(Decimal(n)) == n
    ensures forall i :: 0 <= i < |Decimal(n)| ==> '0' <= Decimal(n)[i] <= '9'
  {
    DigitValue(n % 10);
    if n < 10 {
      ValueSnoc("", Digit(n));
      assert "" + [Digit(n)] == Decimal(n);
    } else {
      DecimalIsValue(n / 10);
      ValueSnoc(Decimal(n / 10), Digit(n % 10));
    }
  }

  /** Blanks, tabs and line ends. */
  predicate Blank(s: string) {
    forall i :: 0 <= i < |s| ==> s[i] == ' ' || s[i] == '\t' || s[i] == '\r' || s[i] == '\n'
  }

  lemma {:induction false} TrimLeftCuts(s: string) returns (front: string)
    ensures s == front + TrimLeft(s) && Blank(front)
    ensures TrimLeft(s) != "" ==> !Blank(TrimLeft(s)[..1])
  {
    front := "";
    if s != "" && s[0] in SPACES {
      var more := TrimLeftCuts(s[1..]);
      front := [s[0]] + more;
    } else if s != "" {
      assert s[..1][0] == s[0] && SPACES[0] == '\r' && SPACES[1] == '\t' && SPACES[2] == '\n' && SPACES[3] == ' ';
    }
  }

  lemma {:induction false} TrimRightCuts(s: string) returns (back: string)
    ensures s == TrimRight(s) + back && Blank(back)
    ensures TrimRight(s) != "" ==> !Blank([TrimRight(s)[|TrimRight(s)| - 1]]) && TrimRight(s)[0] == s[0]
  {
    back := "";
    if s != "" && s[|s| - 1] in SPACES {
      var more := TrimRightCuts(s[..|s| - 1]);
      back := more + [s[|s| - 1]];
    } else if s != "" {
      assert [s[|s| - 1]][0] == s[|s| - 1];
      assert SPACES[0] == '\r' && SPACES[1] == '\t' && SPACES[2] == '\n' && SPACES[3] == ' ';
    }
  }

  /** Trimming cuts blanks off both ends, and as many as there are. */
  lemma TrimCuts(s: string) returns (front: string, back: string)
    ensures s == front + Trim(s) + back && Blank(front) && Blank(back)
    ensures Trim(s) != "" ==> !Blank(Trim(s)[..1]) && !Blank([Trim(s)[|Trim(s)| - 1]])
  {
    var left := TrimLeft(s);
    front := TrimLeftCuts(s);
    back := TrimRightCuts(left);
    ConcatAssoc(front, TrimRight(left), back);
    if TrimRight(left) != "" {
      assert TrimRight(left)[..1] == [TrimRight(left)[0]] == [left[0]] == left[..1];
    }
  }

  datatype BaseState = BaseState(
    id: string, name: string, suites: seq<string>,
    passed: bool, message: string, errors: seq<string>, completed: bool, start: int, end: int)

  /** What Output reports of a state. */
  function OutputOf(s: BaseState): CheckOutput {
    CheckOutput(s.completed, s.passed, s.name, s.id, s.message, Join(s.errors, "\n"), s.suites, s.start, s.end)
  }

  class Base {
    var WasSuccessful: bool
    var Message: string
    var TestSuites: seq<string>
    var start: int
    var end: int
    var TaskID: string
    var JobName: string
    var Errors: seq<string>
    var completed: bool

    function State(): BaseState
      reads this
    {
      BaseState(TaskID, JobName, TestSuites, WasSuccessful, Message, Errors, completed, start, end)
    }

    constructor (checkName: string, now: int)
      ensures State() == BaseState("", checkName, [], false, "", [], false, now, 0)
      ensures JobName == checkName && start == now && end == 0 && TaskID == "" && TestSuites == []
      ensures !WasSuccessful && !completed && Message == "" && Errors == []
    {
      WasSuccessful, Message, TestSuites, start, end := false, "", [], now, 0;
      TaskID, JobName, Errors, completed := "", checkName, [], false;
    }

    method SetID(n: string)
      modifies this
      ensures State() == old(State()).(id := n)
      ensures TaskID == n
    {
      TaskID := n;
    }

    method SetSuites(suites: seq<string>)
      modifies this
      ensures State() == old(State()).(suites := suites)
      ensures TestSuites == suites
    {
      TestSuites := suites;
    }

    method StartTask(now: int)
      modifies this
      ensures State() == old(State()).(start := now)
      ensures start == now
    {
      start := now;
    }

    method SetState(result: bool, now: int)
      modifies this
      ensures State() == old(State()).(passed := result, end := now)
      ensures WasSuccessful == result && end == now
    {
      end := now;
      WasSuccessful := result;
    }

    method SetMessage(msg: string)
      modifies this
      ensures State() == old(State()).(message := msg)
      ensures Message == msg
    {
      Message := msg;
    }

    method SetMessages(msgs: seq<string>)
      modifies this
      ensures State() == old(State()).(message := Join(msgs, "\n"))
      ensures Message == Join(msgs, "\n")
    {
      Message := Join(msgs, "\n");
    }

    /** A nil error is ignored. */
    method AddError(err: Option<string>)
      modifies this
      ensures State() == old(State()).(errors := old(Errors) + match err { case None => [] case Some(e) => [e] })
      ensures Errors == if err.None? then old(Errors) else old(Errors) + [err.value]
    {
      if err.Some? {
        Errors := Errors + [err.value];
      }
    }

    method MarkComplete()
      modifies this
      ensures State() == old(State()).(completed := true)
      ensures completed
    {
      completed := true;
    }

    method Output() returns (out: CheckOutput)
      ensures out == OutputOf(State())
      ensures out.name == TaskID && out.check == JobName && out.suites == TestSuites
      ensures out.completed == completed && out.passed == WasSuccessful
      ensures out.message == Message && out.error == Join(Errors, "\n")
      ensures out.start == start && out.end == end
    {
      out := CheckOutput(completed, WasSuccessful, JobName, TaskID, Message, "", TestSuites, start, end);
      if |Errors| > 0 {
        out := out.(error := Join(Errors, "\n"));
      }
    }
  }

  /** A check as the configuration makes it: under the test's name, in its suites, without errors or result. */
  method Configured(checkName: string, name: string, suites: seq<string>, now: int) returns (b: Base)
    ensures fresh(b)
    ensures OutputOf(b.State()) == CheckOutput(false, false, checkName, name, "", "", suites, now, 0)
    ensures b.Errors == []
  {
    b := new Base(checkName, now);
    b.SetID(name);
    b.SetSuites(suites);
  }

  // ----- histories of runs -----

  /** A verdict was recorded at time end: a failing one left an error behind, a passing one did not. */
  ghost predicate Judged(before: BaseState, after: BaseState, verdict: bool, end: int) {
    && after.passed == verdict && after.end == end
    && before.errors <= after.errors
    && (after.errors == before.errors <==> verdict)
    && (verdict ==> after.message == before.message)
    && after.id == before.id && after.name == before.name && after.suites == before.suites
    && after.start == before.start && after.completed == before.completed
  }

  /** One run with the given verdict, from start to end. */
  ghost predicate RanOnce(before: BaseState, after: BaseState, verdict: bool, start: int, end: int) {
    after.completed && Judged(before.(start := start, completed := true), after, verdict, end)
  }

  /** The states before, between and after some runs. */
  ghost predicate History(states: seq<BaseState>, verdicts: seq<bool>) {
    && |states| == |verdicts| + 1
    && forall k :: 0 <= k < |verdicts| ==>
         RanOnce(states[k], states[k + 1], verdicts[k], states[k + 1].start, states[k + 1].end)
  }

  /**
    After any number of runs of a check: it is completed, it passed iff its last run did, its errors only
    grew, and they are those it started with iff every run passed.
   */
  lemma {:induction false} FailedIffErrors(states: seq<BaseState>, verdicts: seq<bool>)
    requires History(states, verdicts) && |verdicts| > 0
    ensures var last := states[|verdicts|];
            && last.completed
            && last.passed == verdicts[|verdicts| - 1]
            && (last.errors == states[0].errors <==> forall k :: 0 <= k < |verdicts| ==> verdicts[k])
    ensures forall i, j :: 0 <= i <= j < |states| ==> states[i].errors <= states[j].errors
  {
    var n := |verdicts| - 1;
    assert RanOnce(states[n], states[n + 1], verdicts[n], states[n + 1].start, states[n + 1].end);
    if n == 0 {
    } else {
      var init := states[..n + 1];
      forall k | 0 <= k < n
        ensures RanOnce(init[k], init[k + 1], verdicts[..n][k], init[k + 1].start, init[k + 1].end)
      {
        assert RanOnce(states[k], states[k + 1], verdicts[k], states[k + 1].start, states[k + 1].end);
      }
      FailedIffErrors(init, verdicts[..n]);
      assert init[n] == states[n];
      forall i, j | 0 <= i <= j < |states| ensures states[i].errors <= states[j].errors {
        if i <= n {
          assert init[i].errors <= init[n].errors;
        }
        if j <= n {
          assert init[i].errors <= init[j].errors;
        }
      }
      assert init[0].errors <= init[n].errors;
    }
  }

  /** Runs with these verdicts lead from one state to the other. */
  ghost predicate RanThrough(before: BaseState, after: BaseState, verdicts: seq<bool>) {
    exists states :: History(states, verdicts) && states[0] == before && states[|verdicts|] == after
  }

  lemma NoRuns(before: BaseState)
    ensures RanThrough(before, before, [])
  {
    assert History([before], []);
  }

  /** One more run. */
  lemma OneMoreRun(before: BaseState, mid: BaseState, after: BaseState, verdicts: seq<bool>, verdict: bool,
                   start: int, end: int)
    requires RanThrough(before, mid, verdicts) && RanOnce(mid, after, verdict, start, end)
    ensures RanThrough(before, after, verdicts + [verdict])
  {
    var states :| History(states, verdicts) && states[0] == before && states[|verdicts|] == mid;
    var now, all := states + [after], verdicts + [verdict];
    forall k | 0 <= k < |all| ensures RanOnce(now[k], now[k + 1], all[k], now[k + 1].start, now[k + 1].end) {
      if k < |verdicts| {
        assert RanOnce(states[k], states[k + 1], verdicts[k], states[k + 1].start, states[k + 1].end);
      }
    }
    assert History(now, all) && now[0] == before && now[|all|] == after;
  }

  /** What runs with these verdicts make of a state. */
  ghost predicate AfterRuns(before: BaseState, after: BaseState, verdicts: seq<bool>) {
    && before.errors <= after.errors
    && (after.errors == before.errors <==> forall k :: 0 <= k < |verdicts| ==> verdicts[k])
    && (if verdicts == [] then after == before else after.completed && after.passed == verdicts[|verdicts| - 1])
  }

  lemma RunsTell(before: BaseState, after: BaseState, verdicts: seq<bool>)
    requires RanThrough(before, after, verdicts)
    ensures AfterRuns(before, after, verdicts)
  {
    var states :| History(states, verdicts) && states[0] == before && states[|verdicts|] == after;
    if verdicts != [] {
      FailedIffErrors(states, verdicts);
    }
  }
}
