/** The "go test -v" text of check outputs, and how much of them its lines give back. */
module GoTestText {
  import opened Common
  import opened Greenbay
  import opened Converter

  // ----- writing -----

  const RUN_TAG := "=== RUN "
  const MESSAGE_TAG := "    message: "
  const ERROR_TAG := "    error: "
  const PASS_TAG := "--- PASS: "
  const FAIL_TAG := "--- FAIL: "

  function Field(tag: string, text: string): string {
    if text == "" then "" else tag + text + "\n"
  }

  function VerdictLine(show: int -> string, o: CheckOutput): string {
    (if o.passed then PASS_TAG else FAIL_TAG) + o.name + " (" + show(o.end - o.start) + ")"
  }

  /** One output; show is the rendering of a duration. */
  function Text(show: int -> string, o: CheckOutput): string {
    (RUN_TAG + o.name + "\n") + Field(MESSAGE_TAG, o.message) + Field(ERROR_TAG, o.error)
    + (VerdictLine(show, o) + "\n")
  }

  function TextOf(show: int -> string, outputs: seq<CheckOutput>): string {
    if outputs == [] then ""
    else TextOf(show, outputs[..|outputs| - 1]) + Text(show, outputs[|outputs| - 1])
  }

  // ----- reading -----

  /** The pieces between newlines, the piece behind the last one included. */
  function Lines(text: string): (lines: seq<string>)
    ensures |lines| > 0
  {
    if text == "" then [""]
    else if text[0] == '\n' then [""] + Lines(text[1..])
    else var rest := Lines(text[1..]); [[text[0]] + rest[0]] + rest[1..]
  }

  function NameOn(line: string): seq<string> {
    if RUN_TAG <= line then [line[|RUN_TAG|..]] else []
  }

  /** The names on the lines that announce a test. */
  function Names(lines: seq<string>): seq<string> {
    if lines == [] then [] else NameOn(lines[0]) + Names(lines[1..])
  }

  function VerdictOn(line: string): seq<bool> {
    if PASS_TAG <= line then [true] else if FAIL_TAG <= line then [false] else []
  }

  /** The verdicts on the lines that close a test. */
  function Verdicts(lines: seq<string>): seq<bool> {
    if lines == [] then [] else VerdictOn(lines[0]) + Verdicts(lines[1..])
  }

  function FailLines(lines: seq<string>): nat {
    if lines == [] then 0
    else (if FAIL_TAG <= lines[0] then 1 else 0) + FailLines(lines[1..])
  }

  lemma {:induction false} LinesConcat(a: string, b: string)
    ensures Lines(a + "\n" + b) == Lines(a) + Lines(b)
  {
    var all := a + "\n" + b;
    if a == "" {
      assert all == "\n" + b && all[1..] == b;
    } else {
      assert all[0] == a[0] && all[1..] == a[1..] + "\n" + b;
      LinesConcat(a[1..], b);
    }
  }

  lemma {:induction false} LinesTagged(tag: string, text: string)
    requires '\n' !in tag
    ensures Lines(tag + text) == [tag + Lines(text)[0]] + Lines(text)[1..]
  {
    if tag == "" {
      assert tag + text == text && Lines(text) == [Lines(text)[0]] + Lines(text)[1..];
      assert "" + Lines(text)[0] == Lines(text)[0];
    } else {
      assert (tag + text)[0] == tag[0] && (tag + text)[1..] == tag[1..] + text;
      LinesTagged(tag[1..], text);
      assert [tag[0]] + (tag[1..] + Lines(text)[0]) == tag + Lines(text)[0];
    }
  }

  /** The text again, from its lines. */
  function Unlines(lines: seq<string>): string
    requires lines != []
  {
    if |lines| == 1 then lines[0] else lines[0] + "\n" + Unlines(lines[1..])
  }

  lemma UnlinesCons(c: char, first: string, rest: seq<string>)
    ensures Unlines([[c] + first] + rest) == [c] + Unlines([first] + rest)
  {
    var lines, more: seq<string> := [first] + rest, [[c] + first] + rest;
    assert lines[0] == first && lines[1..] == rest && more[0] == [c] + first && more[1..] == rest;
    if rest != [] {
      ConcatAssoc([c], first + "\n", Unlines(rest));
      ConcatAssoc([c], first, "\n");
    }
  }

  /** With newlines between them the lines are the text. */
  lemma {:induction false} LinesJoin(text: string)
    ensures Unlines(Lines(text)) == text
  {
    if text == "" {
    } else {
      var rest := Lines(text[1..]);
      LinesJoin(text[1..]);
      assert text == [text[0]] + text[1..];
      if text[0] == '\n' {
        var lines: seq<string> := [""] + rest;
        assert lines[0] == "" && lines[1..] == rest && "" + "\n" == "\n";
      } else {
        assert [rest[0]] + rest[1..] == rest;
        UnlinesCons(text[0], rest[0], rest[1..]);
      }
    }
  }

  lemma {:induction false} NoNewlineInLines(text: string)
    ensures forall i :: 0 <= i < |Lines(text)| ==> '\n' !in Lines(text)[i]
  {
    if text == "" {
    } else {
      NoNewlineInLines(text[1..]);
    }
  }

  lemma OneLine(text: string)
    requires '\n' !in text
    ensures Lines(text) == [text]
  {
    LinesTagged(text, "");
    assert text + "" == text;
  }

  lemma {:induction false} NamesConcat(a: seq<string>, b: seq<string>)
    ensures Names(a + b) == Names(a) + Names(b)
  {
    if a == [] {
      assert a + b == b;
    } else {
      assert (a + b)[1..] == a[1..] + b;
      NamesConcat(a[1..], b);
      ConcatAssoc(NameOn(a[0]), Names(a[1..]), Names(b));
    }
  }

  lemma {:induction false} VerdictsConcat(a: seq<string>, b: seq<string>)
    ensures Verdicts(a + b) == Verdicts(a) + Verdicts(b)
  {
    if a == [] {
      assert a + b == b;
    } else {
      assert (a + b)[1..] == a[1..] + b;
      VerdictsConcat(a[1..], b);
      ConcatAssoc(VerdictOn(a[0]), Verdicts(a[1..]), Verdicts(b));
    }
  }

  lemma {:induction false} FailLinesConcat(a: seq<string>, b: seq<string>)
    ensures FailLines(a + b) == FailLines(a) + FailLines(b)
  {
    if a == [] {
      assert a + b == b;
    } else {
      assert (a + b)[1..] == a[1..] + b;
      FailLinesConcat(a[1..], b);
    }
  }

  lemma ReadConcat(a: seq<string>, b: seq<string>)
    ensures Names(a + b) == Names(a) + Names(b)
    ensures Verdicts(a + b) == Verdicts(a) + Verdicts(b)
    ensures FailLines(a + b) == FailLines(a) + FailLines(b)
  {
    NamesConcat(a, b);
    VerdictsConcat(a, b);
    FailLinesConcat(a, b);
  }

  // ----- the lines of one output -----

  /** The lines of a text after its first one. */
  function More(text: string): seq<string> {
    Lines(text)[1..]
  }

  function FieldLines(tag: string, text: string): seq<string> {
    if text == "" then [] else [tag + Lines(text)[0]] + More(text)
  }

  /** What follows the tag on the line that closes a test. */
  function Closing(show: int -> string, o: CheckOutput): string {
    o.name + (" (" + show(o.end - o.start) + ")")
  }

  function VerdictTag(o: CheckOutput): string {
    if o.passed then PASS_TAG else FAIL_TAG
  }

  /** Four headers, each followed by the rest of its text if that has more lines. */
  function OutputLines(show: int -> string, o: CheckOutput): seq<string> {
    ([RUN_TAG + Lines(o.name)[0]] + More(o.name))
    + FieldLines(MESSAGE_TAG, o.message)
    + FieldLines(ERROR_TAG, o.error)
    + ([VerdictTag(o) + Lines(Closing(show, o))[0]] + More(Closing(show, o)))
  }

  lemma TaggedRead(tag: string, text: string, rest: string)
    requires '\n' !in tag
    ensures Lines((tag + text + "\n") + rest) == ([tag + Lines(text)[0]] + More(text)) + Lines(rest)
  {
    assert (tag + text + "\n") + rest == (tag + text) + "\n" + rest;
    LinesConcat(tag + text, rest);
    LinesTagged(tag, text);
  }

  lemma FieldRead(tag: string, text: string, rest: string)
    requires '\n' !in tag
    ensures Lines(Field(tag, text) + rest) == FieldLines(tag, text) + Lines(rest)
  {
    if text == "" {
      assert "" + rest == rest;
    } else {
      TaggedRead(tag, text, rest);
    }
  }

  lemma ConcatFive<T>(a: seq<T>, b: seq<T>, c: seq<T>, d: seq<T>, e: seq<T>)
    ensures a + b + c + d + e == a + (b + (c + (d + e)))
  {
  }

  /** Two headers around two fields. */
  lemma PiecesRead(runTag: string, run: string, message: string, error: string, verdictTag: string, verdict: string,
                   rest: string)
    requires '\n' !in runTag && '\n' !in verdictTag
    ensures Lines((runTag + run + "\n") + Field(MESSAGE_TAG, message) + Field(ERROR_TAG, error)
                  + (verdictTag + verdict + "\n") + rest)
         == ([runTag + Lines(run)[0]] + More(run)) + FieldLines(MESSAGE_TAG, message) + FieldLines(ERROR_TAG, error)
            + ([verdictTag + Lines(verdict)[0]] + More(verdict)) + Lines(rest)
  {
    var m, e := Field(MESSAGE_TAG, message), Field(ERROR_TAG, error);
    var tail := (verdictTag + verdict + "\n") + rest;
    ConcatFive(runTag + run + "\n", m, e, verdictTag + verdict + "\n", rest);
    TaggedRead(runTag, run, m + (e + tail));
    FieldRead(MESSAGE_TAG, message, e + tail);
    FieldRead(ERROR_TAG, error, tail);
    TaggedRead(verdictTag, verdict, rest);
    ConcatFive([runTag + Lines(run)[0]] + More(run), FieldLines(MESSAGE_TAG, message), FieldLines(ERROR_TAG, error),
               [verdictTag + Lines(verdict)[0]] + More(verdict), Lines(rest));
  }

  lemma TextRead(show: int -> string, o: CheckOutput, rest: string)
    ensures Lines(Text(show, o) + rest) == OutputLines(show, o) + Lines(rest)
  {
    assert '\n' !in RUN_TAG && '\n' !in PASS_TAG && '\n' !in FAIL_TAG;
    assert VerdictLine(show, o) == VerdictTag(o) + Closing(show, o);
    PiecesRead(RUN_TAG, o.name, o.message, o.error, VerdictTag(o), Closing(show, o), rest);
  }

  // ----- headers, and lines that imitate them -----

  /** A line that starts with a blank is no header. */
  lemma BlankIsNoHeader(line: string)
    requires " " <= line
    ensures Names([line]) == [] && Verdicts([line]) == [] && FailLines([line]) == 0
  {
    assert line[0] == ' ';
    assert !(RUN_TAG <= line) by { assert RUN_TAG[0] == '='; }
    assert !(PASS_TAG <= line) by { assert PASS_TAG[0] == '-'; }
    assert !(FAIL_TAG <= line) by { assert FAIL_TAG[0] == '-'; }
    assert [line][1..] == [];
  }

  lemma FieldHeaders(tag: string, text: string)
    requires " " <= tag
    ensures Names(FieldLines(tag, text)) == Names(More(text))
    ensures Verdicts(FieldLines(tag, text)) == Verdicts(More(text))
    ensures FailLines(FieldLines(tag, text)) == FailLines(More(text))
  {
    if text != "" {
      BlankIsNoHeader(tag + Lines(text)[0]);
      ReadConcat([tag + Lines(text)[0]], More(text));
    }
  }

  lemma RunHeader(name: string)
    ensures Names([RUN_TAG + name]) == [name] && Verdicts([RUN_TAG + name]) == [] && FailLines([RUN_TAG + name]) == 0
  {
    var line: string := RUN_TAG + name;
    assert line[0] == '=' && PASS_TAG[0] == '-' && FAIL_TAG[0] == '-';
    assert line[|RUN_TAG|..] == name && [line][1..] == [];
  }

  lemma VerdictHeader(o: CheckOutput, text: string)
    ensures Names([VerdictTag(o) + text]) == [] && Verdicts([VerdictTag(o) + text]) == [o.passed]
    ensures FailLines([VerdictTag(o) + text]) == if o.passed then 0 else 1
  {
    var line: string := VerdictTag(o) + text;
    assert line[0] == '-' && RUN_TAG[0] == '=';
    assert line[4] == if o.passed then 'P' else 'F';
    assert PASS_TAG[4] == 'P' && FAIL_TAG[4] == 'F';
    assert [line][1..] == [];
  }

  /** The lines of an output that are no headers of it, although they may look like some. */
  function Loose(show: int -> string, o: CheckOutput): seq<string> {
    More(o.name) + More(o.message) + More(o.error) + More(Closing(show, o))
  }

  lemma FourRead(a: seq<string>, b: seq<string>, c: seq<string>, d: seq<string>)
    ensures Names(a + b + c + d) == Names(a) + Names(b) + Names(c) + Names(d)
    ensures Verdicts(a + b + c + d) == Verdicts(a) + Verdicts(b) + Verdicts(c) + Verdicts(d)
    ensures FailLines(a + b + c + d) == FailLines(a) + FailLines(b) + FailLines(c) + FailLines(d)
  {
    ReadConcat(a, b);
    ReadConcat(a + b, c);
    ReadConcat(a + b + c, d);
  }

  lemma RunRead(name: string)
    ensures var lines := [RUN_TAG + Lines(name)[0]] + More(name);
            && Names(lines) == [Lines(name)[0]] + Names(More(name))
            && Verdicts(lines) == Verdicts(More(name))
            && FailLines(lines) == FailLines(More(name))
  {
    RunHeader(Lines(name)[0]);
    ReadConcat([RUN_TAG + Lines(name)[0]], More(name));
  }

  lemma VerdictRead(o: CheckOutput, text: string)
    ensures var lines := [VerdictTag(o) + Lines(text)[0]] + More(text);
            && Names(lines) == Names(More(text))
            && Verdicts(lines) == [o.passed] + Verdicts(More(text))
            && FailLines(lines) == (if o.passed then 0 else 1) + FailLines(More(text))
  {
    VerdictHeader(o, Lines(text)[0]);
    ReadConcat([VerdictTag(o) + Lines(text)[0]], More(text));
  }

  lemma PiecesHeaders(show: int -> string, o: CheckOutput)
    ensures Names(OutputLines(show, o))
         == ([Lines(o.name)[0]] + Names(More(o.name))) + Names(More(o.message)) + Names(More(o.error))
            + Names(More(Closing(show, o)))
    ensures Verdicts(OutputLines(show, o))
         == Verdicts(More(o.name)) + Verdicts(More(o.message)) + Verdicts(More(o.error))
            + ([o.passed] + Verdicts(More(Closing(show, o))))
    ensures FailLines(OutputLines(show, o))
         == FailLines(More(o.name)) + FailLines(More(o.message)) + FailLines(More(o.error))
            + ((if o.passed then 0 else 1) + FailLines(More(Closing(show, o))))
  {
    RunRead(o.name);
    FieldHeaders(MESSAGE_TAG, o.message);
    FieldHeaders(ERROR_TAG, o.error);
    VerdictRead(o, Closing(show, o));
    FourRead([RUN_TAG + Lines(o.name)[0]] + More(o.name), FieldLines(MESSAGE_TAG, o.message),
             FieldLines(ERROR_TAG, o.error), [VerdictTag(o) + Lines(Closing(show, o))[0]] + More(Closing(show, o)));
  }

  /** An output gives one name and one verdict, and whatever its loose lines imitate. */
  lemma OutputHeaders(show: int -> string, o: CheckOutput)
    ensures |Names(OutputLines(show, o))| == 1 + |Names(Loose(show, o))|
    ensures |Verdicts(OutputLines(show, o))| == 1 + |Verdicts(Loose(show, o))|
    ensures FailLines(OutputLines(show, o)) == (if o.passed then 0 else 1) + FailLines(Loose(show, o))
    ensures Names(Loose(show, o)) == [] ==> Names(OutputLines(show, o)) == [Lines(o.name)[0]]
    ensures Verdicts(Loose(show, o)) == [] ==> Verdicts(OutputLines(show, o)) == [o.passed]
  {
    PiecesHeaders(show, o);
    FourRead(More(o.name), More(o.message), More(o.error), More(Closing(show, o)));
  }

  // ----- the lines of a whole report -----

  function NamesOf(outputs: seq<CheckOutput>): seq<string> {
    seq(|outputs|, i requires 0 <= i < |outputs| => outputs[i].name)
  }

  function VerdictsOf(outputs: seq<CheckOutput>): seq<bool> {
    seq(|outputs|, i requires 0 <= i < |outputs| => outputs[i].passed)
  }

  /** All lines of some outputs, one output after the other. */
  function AllLines(show: int -> string, outputs: seq<CheckOutput>): seq<string> {
    if outputs == [] then []
    else AllLines(show, outputs[..|outputs| - 1]) + OutputLines(show, outputs[|outputs| - 1])
  }

  lemma {:induction false} ReportLines(show: int -> string, outputs: seq<CheckOutput>, rest: string)
    ensures Lines(TextOf(show, outputs) + rest) == AllLines(show, outputs) + Lines(rest)
  {
    if outputs == [] {
      assert "" + rest == rest;
    } else {
      var init, o := outputs[..|outputs| - 1], outputs[|outputs| - 1];
      ConcatAssoc(TextOf(show, init), Text(show, o), rest);
      ReportLines(show, init, Text(show, o) + rest);
      TextRead(show, o, rest);
      ConcatAssoc(AllLines(show, init), OutputLines(show, o), Lines(rest));
    }
  }

  /** The piece behind the last newline of a report is blank, so reading it adds nothing. */
  lemma ReportRead(show: int -> string, outputs: seq<CheckOutput>)
    ensures Names(Lines(TextOf(show, outputs))) == Names(AllLines(show, outputs))
    ensures Verdicts(Lines(TextOf(show, outputs))) == Verdicts(AllLines(show, outputs))
    ensures FailLines(Lines(TextOf(show, outputs))) == FailLines(AllLines(show, outputs))
  {
    ReportLines(show, outputs, "");
    assert TextOf(show, outputs) + "" == TextOf(show, outputs);
    assert [""][1..] == [];
    ReadConcat(AllLines(show, outputs), [""]);
  }

  /** A name is on one line, and no other line of the output announces one. */
  ghost predicate ShowsName(show: int -> string, o: CheckOutput) {
    '\n' !in o.name && Names(Loose(show, o)) == []
  }

  /** No line of the output but its last header closes a test. */
  ghost predicate ShowsVerdict(show: int -> string, o: CheckOutput) {
    Verdicts(Loose(show, o)) == []
  }

  lemma {:induction false} FirstLine(text: string)
    ensures '\n' !in Lines(text)[0]
    ensures Lines(text)[0] == text <==> '\n' !in text
  {
    if text == "" {
    } else {
      assert text == [text[0]] + text[1..];
      FirstLine(text[1..]);
    }
  }

  /** If nothing is missing in front, a list that ends in one element splits in one way. */
  lemma LastOfBoth<T>(a: seq<T>, b: seq<T>, c: seq<T>, last: T)
    requires |a| >= |c| && |b| >= 1
    ensures a + b == c + [last] <==> a == c && b == [last]
  {
    if a + b == c + [last] {
      assert |a| == |c| && |b| == 1;
      assert a == (a + b)[..|a|] && b == (a + b)[|a|..];
    }
  }

  ghost predicate AllShowNames(show: int -> string, outputs: seq<CheckOutput>) {
    forall i :: 0 <= i < |outputs| ==> ShowsName(show, outputs[i])
  }

  ghost predicate AllShowVerdicts(show: int -> string, outputs: seq<CheckOutput>) {
    forall i :: 0 <= i < |outputs| ==> ShowsVerdict(show, outputs[i])
  }

  lemma NamesSnoc(show: int -> string, init: seq<CheckOutput>, o: CheckOutput)
    ensures NamesOf(init + [o]) == NamesOf(init) + [o.name]
    ensures AllShowNames(show, init + [o]) <==> AllShowNames(show, init) && ShowsName(show, o)
  {
    var all := init + [o];
    assert all[|init|] == o && forall i :: 0 <= i < |init| ==> all[i] == init[i];
  }

  lemma VerdictsSnoc(show: int -> string, init: seq<CheckOutput>, o: CheckOutput)
    ensures VerdictsOf(init + [o]) == VerdictsOf(init) + [o.passed]
    ensures AllShowVerdicts(show, init + [o]) <==> AllShowVerdicts(show, init) && ShowsVerdict(show, o)
  {
    var all := init + [o];
    assert all[|init|] == o && forall i :: 0 <= i < |init| ==> all[i] == init[i];
  }

  /** The names and verdicts that one output gives, and when they are its own. */
  lemma OutputShows(show: int -> string, o: CheckOutput)
    ensures |Names(OutputLines(show, o))| >= 1 && |Verdicts(OutputLines(show, o))| >= 1
    ensures Names(OutputLines(show, o)) == [o.name] <==> ShowsName(show, o)
    ensures Verdicts(OutputLines(show, o)) == [o.passed] <==> ShowsVerdict(show, o)
  {
    OutputHeaders(show, o);
    FirstLine(o.name);
  }

  lemma {:induction false} NamesRead(show: int -> string, outputs: seq<CheckOutput>)
    ensures |Names(AllLines(show, outputs))| >= |outputs|
    ensures Names(AllLines(show, outputs)) == NamesOf(outputs) <==> AllShowNames(show, outputs)
  {
    if outputs == [] {
    } else {
      var init, o := outputs[..|outputs| - 1], outputs[|outputs| - 1];
      assert outputs == init + [o];
      NamesRead(show, init);
      NamesConcat(AllLines(show, init), OutputLines(show, o));
      OutputShows(show, o);
      NamesSnoc(show, init, o);
      LastOfBoth(Names(AllLines(show, init)), Names(OutputLines(show, o)), NamesOf(init), o.name);
    }
  }

  lemma {:induction false} VerdictsRead(show: int -> string, outputs: seq<CheckOutput>)
    ensures |Verdicts(AllLines(show, outputs))| >= |outputs|
    ensures Verdicts(AllLines(show, outputs)) == VerdictsOf(outputs) <==> AllShowVerdicts(show, outputs)
  {
    if outputs == [] {
    } else {
      var init, o := outputs[..|outputs| - 1], outputs[|outputs| - 1];
      assert outputs == init + [o];
      VerdictsRead(show, init);
      VerdictsConcat(AllLines(show, init), OutputLines(show, o));
      OutputShows(show, o);
      VerdictsSnoc(show, init, o);
      LastOfBoth(Verdicts(AllLines(show, init)), Verdicts(OutputLines(show, o)), VerdictsOf(init), o.passed);
    }
  }

  /**
    Splitting a report into lines gives back the names of all outputs, in order, iff each name is on one
    line and no loose line announces a test; and it gives back their verdicts iff no loose line closes one.
   */
  lemma Decodable(show: int -> string, outputs: seq<CheckOutput>)
    ensures Names(Lines(TextOf(show, outputs))) == NamesOf(outputs) <==> AllShowNames(show, outputs)
    ensures Verdicts(Lines(TextOf(show, outputs))) == VerdictsOf(outputs) <==> AllShowVerdicts(show, outputs)
  {
    ReportRead(show, outputs);
    NamesRead(show, outputs);
    VerdictsRead(show, outputs);
  }

  lemma NoMore(text: string)
    requires '\n' !in text
    ensures More(text) == []
  {
    OneLine(text);
  }

  /** Texts without newline have no loose lines. */
  lemma SingleLinesShow(show: int -> string, o: CheckOutput)
    requires '\n' !in o.name && '\n' !in o.message && '\n' !in o.error && '\n' !in show(o.end - o.start)
    ensures Loose(show, o) == [] && ShowsName(show, o) && ShowsVerdict(show, o)
  {
    NoMore(o.name);
    NoMore(o.message);
    NoMore(o.error);
    NoMore(Closing(show, o));
  }

  /** FAIL headers that loose lines imitate. */
  function ForgedIn(show: int -> string, outputs: seq<CheckOutput>): nat {
    if outputs == [] then 0
    else ForgedIn(show, outputs[..|outputs| - 1]) + FailLines(Loose(show, outputs[|outputs| - 1]))
  }

  lemma {:induction false} FailLinesRead(show: int -> string, outputs: seq<CheckOutput>)
    ensures FailLines(AllLines(show, outputs)) == |WithVerdict(outputs, false)| + ForgedIn(show, outputs)
  {
    if outputs == [] {
    } else {
      var init, o := outputs[..|outputs| - 1], outputs[|outputs| - 1];
      FailLinesRead(show, init);
      FailLinesConcat(AllLines(show, init), OutputLines(show, o));
      OutputHeaders(show, o);
    }
  }

  /** The FAIL lines of a report count its failing outputs iff no loose line forges one. */
  lemma FailLinesCountFailures(show: int -> string, outputs: seq<CheckOutput>)
    ensures FailLines(Lines(TextOf(show, outputs))) == |WithVerdict(outputs, false)| + ForgedIn(show, outputs)
    ensures FailLines(Lines(TextOf(show, outputs))) == |WithVerdict(outputs, false)| <==> NoForgery(show, outputs)
  {
    ReportRead(show, outputs);
    FailLinesRead(show, outputs);
    NothingForged(show, outputs);
  }

  /** No loose line is a FAIL header. */
  ghost predicate NoForgery(show: int -> string, outputs: seq<CheckOutput>) {
    forall i :: 0 <= i < |outputs| ==> FailLines(Loose(show, outputs[i])) == 0
  }

  lemma NoForgerySnoc(show: int -> string, init: seq<CheckOutput>, o: CheckOutput)
    ensures NoForgery(show, init + [o]) <==> NoForgery(show, init) && FailLines(Loose(show, o)) == 0
  {
    var all := init + [o];
    assert all[|init|] == o && forall i :: 0 <= i < |init| ==> all[i] == init[i];
  }

  lemma {:induction false} NothingForged(show: int -> string, outputs: seq<CheckOutput>)
    ensures ForgedIn(show, outputs) == 0 <==> NoForgery(show, outputs)
  {
    if outputs == [] {
    } else {
      var init, o := outputs[..|outputs| - 1], outputs[|outputs| - 1];
      assert outputs == init + [o];
      NothingForged(show, init);
      NoForgerySnoc(show, init, o);
    }
  }

  /** A passing check whose message has a second line that reads as a failure. */
  const FORGER := CheckOutput(true, true, "", "t", "a\n--- FAIL: x", "", [], 0, 0)

  lemma SecondLine(first: string, second: string)
    requires '\n' !in first && '\n' !in second
    ensures More(first + "\n" + second) == [second]
  {
    LinesConcat(first, second);
    OneLine(first);
    OneLine(second);
  }

  /** An output whose only second line is that of its message. */
  lemma ForgedLine(show: int -> string, o: CheckOutput, first: string, second: string)
    requires '\n' !in o.name && '\n' !in o.error && '\n' !in show(o.end - o.start)
    requires '\n' !in first && '\n' !in second && o.message == first + "\n" + second
    ensures Loose(show, o) == [second]
  {
    SecondLine(first, second);
    NoMore(o.name);
    NoMore(o.error);
    NoMore(Closing(show, o));
  }

  lemma ForgedReport(show: int -> string, o: CheckOutput, text: string)
    requires o.passed && Loose(show, o) == [FAIL_TAG + text]
    ensures FailLines(Lines(TextOf(show, [o]))) == 1 && WithVerdict([o], false) == []
    ensures Verdicts(Lines(TextOf(show, [o]))) != VerdictsOf([o])
  {
    var outputs := [o];
    assert outputs[..0] == [];
    VerdictHeader(o.(passed := false), text);
    FailLinesCountFailures(show, outputs);
    Decodable(show, outputs);
    assert !ShowsVerdict(show, outputs[0]);
  }

  /** Its report has a FAIL line though nothing failed, and its verdicts are not the one of the check. */
  lemma OneForgery(show: int -> string)
    requires '\n' !in show(0)
    ensures FailLines(Lines(TextOf(show, [FORGER]))) == 1 && WithVerdict([FORGER], false) == []
    ensures Verdicts(Lines(TextOf(show, [FORGER]))) != VerdictsOf([FORGER])
  {
    assert FORGER.message == "a" + "\n" + (FAIL_TAG + "x");
    ForgedLine(show, FORGER, "a", FAIL_TAG + "x");
    ForgedReport(show, FORGER, "x");
  }

  lemma {:induction false} TextOfConcat(show: int -> string, a: seq<CheckOutput>, b: seq<CheckOutput>)
    ensures TextOf(show, a + b) == TextOf(show, a) + TextOf(show, b)
  {
    if b == [] {
      assert a + b == a;
    } else {
      assert (a + b)[..|a + b| - 1] == a + b[..|b| - 1];
      TextOfConcat(show, a, b[..|b| - 1]);
    }
  }
}
