/**
 * The verdict and the report of one test, and the run statistics, of
 * `src/testing/results/`: `Result.validate` with its class-level counters,
 * `Result.print_status`, and the report texts of `ClassicResult` and
 * `StreamResult`. Console styles are kept as a level per report; the escape
 * codes of bold, italic and underline are left out of the texts.
 */
module Results {
  import opened Wrappers
  import opened Values
  import opened PyStr
  import opened General
  import Config
  import TestingUtils

  /** The printer a report goes to: `print_info`, `print_warning` or `print_error`. */
  datatype Level = InfoLevel | WarningLevel | ErrorLevel

  /** A printed report: its style and its text. */
  datatype Report = Report(level: Level, text: string)

  /** The `Result` subclass a tester builds. */
  datatype ResultKind = Classic | Stream

  /** A `Result` object: the value the target returned, the time it took and
      the arguments before and after the call. */
  datatype TestResult = TestResult(kind: ResultKind, value: Value, time: real, argsBefore: seq<Value>, argsAfter: seq<Value>)

  /** A `VALIDATOR` of the settings: from the arguments before and after the
      call, the expected value and the value returned, a value whose truth is
      the verdict, or an exception. */
  type Validator = (seq<Value>, seq<Value>, Value, Value) -> Result<Value>

  /** What `validate` decides, returns and prints for one test: the truth of
      the answer, the answer itself (the validator's value, or a bool), and
      the report. */
  datatype Verdict = Verdict(success: bool, answer: Value, report: Report)

  // ---------------------------------------------------------------------------
  // the verdict

  /** `_validate_answer`: with no expected value every result passes; a classic
      result passes when it equals the expected value, a stream result when its
      output and the expected text split into the same whitespace-separated
      tokens (`split` of anything but a string raises AttributeError). */
  function DefaultJudge(r: TestResult, expected: Value): (ok: Result<bool>)
    ensures expected.VNull? ==> ok == Ok(true)
    ensures r.kind.Classic? ==> ok.Ok?
    ensures r.kind.Stream? && !expected.VNull? ==> (ok.Ok? <==> r.value.VStr? && expected.VStr?)
  {
    if expected.VNull? then Ok(true)
    else
      match r.kind
      case Classic => Ok(PyEq(r.value, expected))
      case Stream =>
        if !r.value.VStr? || !expected.VStr? then Err(AttributeError)
        else Ok(Tokens(r.value.s) == Tokens(expected.s))
  }

  /** The `success` of `validate`, which it also returns: the validator's
      value when a validator is given, the bool of `_validate_answer`
      otherwise. */
  function Answer(r: TestResult, expected: Value, validator: Option<Validator>): (a: Result<Value>)
    ensures validator.None? ==> (a.Ok? <==> DefaultJudge(r, expected).Ok?)
    ensures validator.None? && a.Ok? ==> a.value == VBool(DefaultJudge(r, expected).value)
  {
    match validator
    case Some(f) => f(r.argsBefore, r.argsAfter, expected, r.value)
    case None =>
      var ok :- DefaultJudge(r, expected);
      Ok(VBool(ok))
  }

  /** The decision of `validate`: the truth of its answer. */
  function Decide(r: TestResult, expected: Value, validator: Option<Validator>): (ok: Result<bool>)
    ensures validator.Some? ==>
      var answer := validator.value(r.argsBefore, r.argsAfter, expected, r.value);
      (ok.Ok? <==> answer.Ok?) && (ok.Ok? ==> (ok.value <==> !Falsy(answer.value)))
    ensures validator.None? ==> ok == DefaultJudge(r, expected)
  {
    var answer :- Answer(r, expected, validator);
    Ok(!Falsy(answer))
  }

  /** A classic result equal to its expected value passes. */
  lemma {:induction false} ClassicJudgeSelf(r: TestResult)
    requires r.kind.Classic? && WellFormed(r.value)
    ensures DefaultJudge(r, r.value) == Ok(true)
  {
    PyEqReflexive(r.value);
  }

  /** A trailing whitespace character on the output, such as the line feed
      `print` ends with, never changes a stream verdict. */
  lemma {:induction false} StreamJudgeTrailingSpace(r: TestResult, c: char, expected: Value)
    requires r.kind.Stream? && r.value.VStr? && IsSpace(c)
    ensures DefaultJudge(r.(value := VStr(r.value.s + [c])), expected) == DefaultJudge(r, expected)
  {
    TokensTrailingSpace(r.value.s, c);
  }

  // ---------------------------------------------------------------------------
  // the classic report

  /** `to_json_string` of each value, in order. */
  function JsonEach(vs: seq<Value>): (ss: seq<string>)
    ensures |ss| == |vs| && forall i :: 0 <= i < |vs| ==> ss[i] == ToJsonString(vs[i]) && ss[i] != []
  {
    seq(|vs|, i requires 0 <= i < |vs| => ToJsonString(vs[i]))
  }

  /** The arguments were changed by the call (`args_before != args_after`). */
  predicate Changed(r: TestResult) {
    !PyEq(VList(r.argsBefore), VList(r.argsAfter))
  }

  /** The line that reports the value, two spaces wider on failure. */
  function ResultLine(r: TestResult, success: bool): string {
    "Result:" + " " + (if success then "" else "  ") + ToJsonString(r.value)
  }

  /** The line that reports the expected value. */
  function ExpectedLine(expected: Value): string {
    "Expected:" + " " + ToJsonString(expected)
  }

  /** The argument lines and a line feed, or nothing when the joined lines
      are empty (`if args_before`). */
  function BeforeText(before: seq<string>): string {
    var joined := Join("\n", before);
    if joined != [] then joined + "\n" else []
  }

  /** The "Arguments after:" block, present only when the arguments changed. */
  function AfterText(after: Option<seq<string>>): string {
    if after.Some? then "Arguments after:" + "\n" + Join("\n", after.value) + "\n" else []
  }

  /** The line feed and expected line added on failure. */
  function ExpectedText(expected: Option<string>): string {
    if expected.Some? then "\n" + expected.value else []
  }

  /** The concatenation `ClassicResult._get_result_message` performs, over the
      rendered pieces: the argument lines, the changed-argument lines when the
      arguments changed, the result line and, on failure, the expected line. */
  function ClassicAssemble(before: seq<string>, after: Option<seq<string>>, result: string, expected: Option<string>): string {
    BeforeText(before) + AfterText(after) + result + ExpectedText(expected)
  }

  /** The same report as a list of lines: an empty list of changed arguments
      still leaves one empty line under its heading. */
  function AssembledLines(before: seq<string>, after: Option<seq<string>>, result: string, expected: Option<string>): seq<string> {
    before
    + (if after.Some? then ["Arguments after:"] + (if after.value == [] then [""] else after.value) else [])
    + [result]
    + (if expected.Some? then [expected.value] else [])
  }

  /** The argument lines come first, in front of the rest of the report. */
  lemma {:induction false} LinesFront(before: seq<string>, after: Option<seq<string>>, result: string, expected: Option<string>)
    ensures AssembledLines(before, after, result, expected) == before + AssembledLines([], after, result, expected)
  {
  }

  /** Without argument lines, the report starts at the "Arguments after:"
      block when there is one, and at the result line otherwise. */
  lemma {:induction false} LinesTail(after: Option<seq<string>>, result: string, expected: Option<string>)
    ensures var tail := [result] + (if expected.Some? then [expected.value] else []);
      AssembledLines([], after, result, expected)
      == (if after.Some? then ["Arguments after:"] + (if after.value == [] then [""] else after.value) + tail else tail)
  {
  }

  /** Joining a non-empty list of non-empty parts gives a non-empty text. */
  lemma {:induction false} JoinNonEmpty(a: seq<string>)
    requires a != [] && a[0] != []
    ensures Join("\n", a) != []
  {
    if |a| > 1 {
      assert Join("\n", a)[..|a[0]|] == a[0];
    }
  }

  /** One part in front of a non-empty list of parts. */
  lemma {:induction false} JoinCons(a: string, rest: seq<string>)
    requires rest != []
    ensures Join("\n", [a] + rest) == a + "\n" + Join("\n", rest)
  {
    assert ([a] + rest)[1..] == rest;
  }

  /** The result line and, on failure, the expected line. */
  lemma {:induction false} ResultTail(result: string, expected: Option<string>)
    ensures Join("\n", [result] + (if expected.Some? then [expected.value] else []))
      == result + (if expected.Some? then "\n" + expected.value else [])
  {
    if expected.Some? {
      JoinCons(result, [expected.value]);
    } else {
      assert [result] + [] == [result];
    }
  }

  /** The "Arguments after:" block in front of the rest of the report. */
  lemma {:induction false} AfterBlock(after: seq<string>, tail: seq<string>)
    requires tail != []
    ensures var al := if after == [] then [""] else after;
      Join("\n", ["Arguments after:"] + al + tail)
      == "Arguments after:" + "\n" + Join("\n", after) + "\n" + Join("\n", tail)
  {
    var al := if after == [] then [""] else after;
    assert Join("\n", al) == Join("\n", after);
    assert ["Arguments after:"] + al + tail == ["Arguments after:"] + (al + tail);
    JoinCons("Arguments after:", al + tail);
    JoinAppend("\n", al, tail);
  }

  /** The tail of the report from the "Arguments after:" block on. */
  lemma {:induction false} AssembledTail(after: Option<seq<string>>, result: string, expected: Option<string>)
    ensures Join("\n", AssembledLines([], after, result, expected)) == AfterText(after) + result + ExpectedText(expected)
  {
    var tail := [result] + (if expected.Some? then [expected.value] else []);
    var r := result + ExpectedText(expected);
    assert Join("\n", tail) == r by {
      ResultTail(result, expected);
    }
    LinesTail(after, result, expected);
    if after.Some? {
      AfterBlock(after.value, tail);
      Regroup([], AfterText(after), result, ExpectedText(expected));
    } else {
      assert [] + r == r;
    }
  }

  /** The assembled report is its lines joined with line feeds, provided no
      argument renders as an empty text. */
  lemma {:induction false} AssembledLinesJoin(before: seq<string>, after: Option<seq<string>>, result: string, expected: Option<string>)
    requires forall i :: 0 <= i < |before| ==> before[i] != []
    ensures ClassicAssemble(before, after, result, expected) == Join("\n", AssembledLines(before, after, result, expected))
  {
    var t := AssembledLines([], after, result, expected);
    var rest := AfterText(after) + result + ExpectedText(expected);
    assert Join("\n", t) == rest by {
      AssembledTail(after, result, expected);
    }
    assert ClassicAssemble(before, after, result, expected) == BeforeText(before) + rest by {
      Regroup(BeforeText(before), AfterText(after), result, ExpectedText(expected));
    }
    assert Join("\n", AssembledLines(before, after, result, expected)) == BeforeText(before) + Join("\n", t) by {
      LinesFront(before, after, result, expected);
      JoinFront(before, t);
    }
  }

  /** Four texts concatenated, regrouped to the right. */
  lemma {:induction false} Regroup(a: string, b: string, c: string, d: string)
    ensures a + b + c + d == a + (b + c + d) && [] + (b + (c + d)) == b + c + d
  {
  }

  /** Parts in front of a non-empty list: their join and a line feed, or
      nothing when there are none. */
  lemma {:induction false} JoinFront(before: seq<string>, t: seq<string>)
    requires t != [] && forall i :: 0 <= i < |before| ==> before[i] != []
    ensures Join("\n", before + t) == BeforeText(before) + Join("\n", t)
  {
    if before == [] {
      assert before + t == t;
    } else {
      JoinAppend("\n", before, t);
      JoinNonEmpty(before);
    }
  }

  /** The text `ClassicResult._get_result_message` builds before its
      `string_to_json` pass. */
  function ClassicText(r: TestResult, success: bool, expected: Value): string {
    ClassicAssemble(JsonEach(r.argsBefore), if Changed(r) then Some(JsonEach(r.argsAfter)) else None,
                    ResultLine(r, success), if success then None else Some(ExpectedLine(expected)))
  }

  /** The classic report line by line: one line per argument, then, when the
      call changed them, a heading and one line per changed argument, then the
      result, then the expected value on failure only. */
  function ClassicLines(r: TestResult, success: bool, expected: Value): (ls: seq<string>)
    ensures |ls| == |r.argsBefore| + (if Changed(r) then 1 + (if r.argsAfter == [] then 1 else |r.argsAfter|) else 0)
                    + 1 + (if success then 0 else 1)
    ensures ls[|ls| - 1] == if success then ResultLine(r, success) else ExpectedLine(expected)
  {
    AssembledLines(JsonEach(r.argsBefore), if Changed(r) then Some(JsonEach(r.argsAfter)) else None,
                   ResultLine(r, success), if success then None else Some(ExpectedLine(expected)))
  }

  /** The classic report text is its lines joined with line feeds. */
  lemma {:induction false} ClassicTextLines(r: TestResult, success: bool, expected: Value)
    ensures ClassicText(r, success, expected) == Join("\n", ClassicLines(r, success, expected))
  {
    AssembledLinesJoin(JsonEach(r.argsBefore), if Changed(r) then Some(JsonEach(r.argsAfter)) else None,
                       ResultLine(r, success), if success then None else Some(ExpectedLine(expected)));
  }

  /** `ClassicResult._get_result_message`: the report text after
      `string_to_json`, which leaves no single quote in it. */
  function ClassicMessage(r: TestResult, success: bool, expected: Value): (m: string)
    ensures '\'' !in m
  {
    JsonTextHasNoSingleQuote(ClassicText(r, success, expected));
    JsonText(ClassicText(r, success, expected))
  }

  /** When no line holds a single quote or the letters N, T or F, the classic
      report is exactly its lines joined with line feeds. */
  lemma {:induction false} ClassicMessagePlain(r: TestResult, success: bool, expected: Value)
    requires var ls := ClassicLines(r, success, expected);
      forall i :: 0 <= i < |ls| ==> '\'' !in ls[i] && 'N' !in ls[i] && 'T' !in ls[i] && 'F' !in ls[i]
    ensures ClassicMessage(r, success, expected) == Join("\n", ClassicLines(r, success, expected))
  {
    var ls := ClassicLines(r, success, expected);
    ClassicTextLines(r, success, expected);
    JoinAvoids(ls, '\'');
    JoinAvoids(ls, 'N');
    JoinAvoids(ls, 'T');
    JoinAvoids(ls, 'F');
    JsonTextKeeps(Join("\n", ls));
  }

  /** A character absent from every part and from the separator "\n" is absent from the join. */
  lemma {:induction false} JoinAvoids(ls: seq<string>, c: char)
    requires c != '\n' && forall i :: 0 <= i < |ls| ==> c !in ls[i]
    ensures c !in Join("\n", ls)
  {
    if |ls| > 1 {
      JoinAvoids(ls[1..], c);
    }
  }

  // ---------------------------------------------------------------------------
  // the stream report

  /** The text shown when a stream test has no input, output or expected text. */
  const NoInputNoOutput: string := "No input no output..."

  /** The concatenation `StreamResult._get_result_message` performs over the
      stripped input, output and shown expected text. */
  function StreamAssemble(input: string, output: string, shown: string): string {
    var m1 := if input != [] then "Input:" + "\n" + input else [];
    var m2 := if output != [] then m1 + (if m1 != [] then "\n" else []) + "Output:" + "\n" + output else m1;
    var m3 := if shown != [] then m2 + (if m2 != [] then "\n" else []) + "Expected:" + "\n" + shown else m2;
    if m3 != [] then m3 else NoInputNoOutput
  }

  /** `StreamResult._get_result_message`: the stripped input, the stripped
      output and, on failure, the stripped expected text, each under its
      heading when not empty. `args_before[0]` raises IndexError on no
      arguments, and `strip` of anything but a string AttributeError. */
  function StreamMessage(r: TestResult, success: bool, expected: Value): (m: Result<string>)
    ensures m.Ok? <==> |r.argsBefore| > 0 && r.argsBefore[0].VStr? && r.value.VStr? && (success || expected.VStr?)
    ensures |r.argsBefore| == 0 ==> m == Err(IndexError)
    ensures m.Ok? ==> m.value != []
  {
    if |r.argsBefore| == 0 then Err(IndexError)
    else if !r.argsBefore[0].VStr? || !r.value.VStr? then Err(AttributeError)
    else if !success && !expected.VStr? then Err(AttributeError)
    else Ok(StreamAssemble(Strip(r.argsBefore[0].s), Strip(r.value.s), if success then [] else Strip(expected.s)))
  }

  /** A heading over its text, or nothing when the text is empty. */
  function Section(heading: string, text: string): seq<string> {
    if text == [] then [] else [heading + "\n" + text]
  }

  /** Appending "\n" and one more section to a joined run of sections. */
  lemma {:induction false} JoinSnoc(secs: seq<string>, s: string)
    ensures Join("\n", secs + [s]) == Join("\n", secs) + (if secs != [] then "\n" else []) + s
  {
    if secs == [] {
      assert secs + [s] == [s];
    } else {
      JoinAppend("\n", secs, [s]);
    }
  }

  /** A joined run of non-empty sections is empty only when there are none. */
  lemma {:induction false} JoinEmpty(secs: seq<string>)
    requires forall i :: 0 <= i < |secs| ==> secs[i] != []
    ensures Join("\n", secs) == [] <==> secs == []
  {
    if secs != [] {
      JoinNonEmpty(secs);
    }
  }

  /** One more section after a joined run of non-empty sections. */
  lemma {:induction false} SectionSnoc(secs: seq<string>, heading: string, text: string)
    requires forall i :: 0 <= i < |secs| ==> secs[i] != []
    ensures var m := Join("\n", secs);
      Join("\n", secs + Section(heading, text))
      == if text != [] then m + (if m != [] then "\n" else []) + heading + "\n" + text else m
  {
    JoinEmpty(secs);
    if text != [] {
      JoinSnoc(secs, heading + "\n" + text);
    } else {
      assert secs + Section(heading, text) == secs;
    }
  }

  /** The stream text is its non-empty sections joined with line feeds, or the
      placeholder when all three are empty. */
  lemma {:induction false} StreamAssembleSections(input: string, output: string, shown: string)
    ensures var secs := Section("Input:", input) + Section("Output:", output) + Section("Expected:", shown);
      StreamAssemble(input, output, shown) == if secs == [] then NoInputNoOutput else Join("\n", secs)
  {
    var s1 := Section("Input:", input);
    var s2 := s1 + Section("Output:", output);
    var s3 := s2 + Section("Expected:", shown);
    var m1 := if input != [] then "Input:" + "\n" + input else [];
    var m2 := if output != [] then m1 + (if m1 != [] then "\n" else []) + "Output:" + "\n" + output else m1;
    var m3 := if shown != [] then m2 + (if m2 != [] then "\n" else []) + "Expected:" + "\n" + shown else m2;
    assert Join("\n", s1) == m1;
    assert Join("\n", s2) == m2 by {
      SectionSnoc(s1, "Output:", output);
    }
    assert Join("\n", s3) == m3 by {
      SectionSnoc(s2, "Expected:", shown);
    }
    JoinEmpty(s3);
  }

  /** The stream report is its non-empty sections, input, output and (on
      failure) expected, joined with line feeds, or the placeholder when all
      three are empty: "Expected:" appears only on failure. */
  lemma {:induction false} StreamMessageSections(r: TestResult, success: bool, expected: Value)
    requires StreamMessage(r, success, expected).Ok?
    ensures var secs := Section("Input:", Strip(r.argsBefore[0].s))
                        + Section("Output:", Strip(r.value.s))
                        + Section("Expected:", if success then [] else Strip(expected.s));
      StreamMessage(r, success, expected).value == if secs == [] then NoInputNoOutput else Join("\n", secs)
  {
    StreamAssembleSections(Strip(r.argsBefore[0].s), Strip(r.value.s), if success then [] else Strip(expected.s));
  }

  /** The report text of a result of either kind. */
  function Message(r: TestResult, success: bool, expected: Value): (m: Result<string>)
    ensures r.kind.Classic? ==> m == Ok(ClassicMessage(r, success, expected))
    ensures r.kind.Stream? ==> m == StreamMessage(r, success, expected)
  {
    match r.kind
    case Classic => Ok(ClassicMessage(r, success, expected))
    case Stream => StreamMessage(r, success, expected)
  }

  /** What `validate` returns for run `n`: the answer, its truth, and the
      report under the "TEST n" banner, at error level for a failure; or the
      exception of the validator or of the report text. */
  function Judged(r: TestResult, expected: Value, validator: Option<Validator>, n: nat): (v: Result<Verdict>)
    ensures var d := Decide(r, expected, validator);
      (v.Ok? <==> d.Ok? && Message(r, d.value, expected).Ok?)
      && (v.Ok? ==> v.value.success == d.value && Answer(r, expected, validator) == Ok(v.value.answer))
      && (v.Ok? ==> (v.value.report.level == InfoLevel <==> v.value.success))
      && (v.Ok? ==> v.value.report.text == TestHeader(n) + "\n" + Message(r, d.value, expected).value + "\n")
  {
    var answer :- Answer(r, expected, validator);
    var success := !Falsy(answer);
    var message :- Message(r, success, expected);
    Ok(Verdict(success, answer, Report(if success then InfoLevel else ErrorLevel, TestHeader(n) + "\n" + message + "\n")))
  }

  /** The banner over the report of run `n`. */
  function TestHeader(n: nat): string {
    TestingUtils.GetHeader("TEST " + NatToString(n), Config.HeaderWidth, "=")
  }

  // ---------------------------------------------------------------------------
  // the statistics

  /** The number of true entries. */
  function CountTrue(bs: seq<bool>): (n: nat)
    ensures n <= |bs|
  {
    if bs == [] then 0 else CountTrue(bs[..|bs| - 1]) + (if bs[|bs| - 1] then 1 else 0)
  }

  /** Every run passed exactly when the passes number the runs. */
  lemma {:induction false} CountTrueAll(bs: seq<bool>)
    ensures CountTrue(bs) == |bs| <==> forall i :: 0 <= i < |bs| ==> bs[i]
  {
    if bs != [] {
      var init := bs[..|bs| - 1];
      CountTrueAll(init);
      if CountTrue(bs) == |bs| {
        forall i | 0 <= i < |bs| ensures bs[i] {
          if i < |bs| - 1 {
            assert bs[i] == init[i];
          }
        }
      } else {
        assert CountTrue(init) < |init| || !bs[|bs| - 1];
      }
    }
  }

  /** One more verdict adds one to the count exactly when it is true. */
  lemma {:induction false} CountTrueSnoc(bs: seq<bool>, b: bool)
    ensures CountTrue(bs + [b]) == CountTrue(bs) + (if b then 1 else 0)
  {
    assert (bs + [b])[..|bs|] == bs;
  }

  /** Run numbers listed once each, in increasing order, none past `runs`. */
  predicate RunNumbers(ns: seq<nat>, runs: nat) {
    (forall i :: 0 <= i < |ns| ==> 1 <= ns[i] <= runs)
    && (forall i, j :: 0 <= i < j < |ns| ==> ns[i] < ns[j])
  }

  /** A new run may list its number after the earlier ones. */
  lemma {:induction false} RunNumbersNext(ns: seq<nat>, runs: nat, listed: bool)
    requires RunNumbers(ns, runs)
    ensures RunNumbers(ns + (if listed then [runs + 1] else []), runs + 1)
  {
    if !listed {
      assert ns + [] == ns;
    }
  }

  /** One more run keeps the counters in step with the verdicts. */
  lemma {:induction false} TallyNext(outcomes: seq<bool>, passed: nat, runs: nat, withoutExpected: seq<nat>, success: bool, listed: bool)
    requires runs == |outcomes| && passed == CountTrue(outcomes) && RunNumbers(withoutExpected, runs)
    ensures runs + 1 == |outcomes + [success]|
    ensures passed + (if success then 1 else 0) == CountTrue(outcomes + [success])
    ensures RunNumbers(withoutExpected + (if listed then [runs + 1] else []), runs + 1)
  {
    CountTrueSnoc(outcomes, success);
    RunNumbersNext(withoutExpected, runs, listed);
  }

  /** The list of run numbers as `str` prints a list of ints. */
  function RunList(ns: seq<nat>): (v: Value)
    ensures v.VList? && |v.items| == |ns|
  {
    VList(seq(|ns|, i requires 0 <= i < |ns| => VInt(ns[i])))
  }

  /** `print_status`: the summary, as info when every run passed and as a
      warning otherwise, then, only when some runs had no expected value, a
      warning that counts and lists them. */
  function Status(passed: nat, runs: nat, withoutExpected: seq<nat>): seq<Report> {
    var summary := Report(
      if passed == runs then InfoLevel else WarningLevel,
      TestingUtils.GetHeader("RESULT", Config.HeaderWidth, "=") + "\n"
      + "Tests passed: " + NatToString(passed) + "/" + NatToString(runs));
    if withoutExpected == [] then [summary]
    else
      [summary, Report(WarningLevel, NatToString(|withoutExpected|) + " tests do not have expected results: "
                                     + Repr(RunList(withoutExpected)))]
  }

  /** The summary is printed as info exactly when every recorded run passed;
      the second report appears exactly when some run had no expected value,
      and is a warning. */
  lemma {:induction false} StatusLevels(outcomes: seq<bool>, withoutExpected: seq<nat>)
    ensures var st := Status(CountTrue(outcomes), |outcomes|, withoutExpected);
      (|st| == 2 <==> withoutExpected != []) && (|st| == 1 <==> withoutExpected == [])
      && (st[0].level == InfoLevel <==> forall i :: 0 <= i < |outcomes| ==> outcomes[i])
      && (st[0].level != InfoLevel ==> st[0].level == WarningLevel)
      && (|st| == 2 ==> st[1].level == WarningLevel)
  {
    CountTrueAll(outcomes);
  }

  /** The class-level counters of `Result`, shared by every result object. */
  class Tally {
    /** `__count_runs`. */
    var runs: nat
    /** `__count_passed`. */
    var passed: nat
    /** `__total_time`. */
    var totalTime: real
    /** `__tests_without_expected`: numbers of runs that had no expected value. */
    var withoutExpected: seq<nat>
    /** The verdict of every run so far, false where deciding raised. */
    ghost var outcomes: seq<bool>

    /** Passes count the runs whose verdict was true, and the runs without an
        expected value are listed once each, in order, by number. */
    ghost predicate Valid()
      reads this
    {
      runs == |outcomes| && passed == CountTrue(outcomes) && RunNumbers(withoutExpected, runs)
    }

    /** The counters as the class defines them, before any run. */
    constructor ()
      ensures Valid()
      ensures runs == 0 && passed == 0 && totalTime == 0.0 && withoutExpected == [] && outcomes == []
    {
      runs := 0;
      passed := 0;
      totalTime := 0.0;
      withoutExpected := [];
      outcomes := [];
    }

    /** `Result.validate`: counts the run and its time, records a run with no
        expected value but some value, decides, counts a pass, and builds the
        report under the "TEST n" banner. The counters move before the
        decision or the report text can raise. */
    method Validate(r: TestResult, expected: Value, validator: Option<Validator>) returns (out: Result<Verdict>)
      requires Valid()
      modifies this
      ensures Valid()
      ensures runs == old(runs) + 1 && totalTime == old(totalTime) + r.time
      ensures withoutExpected == old(withoutExpected) + (if expected.VNull? && !r.value.VNull? then [runs] else [])
      ensures var d := Decide(r, expected, validator);
        outcomes == old(outcomes) + [d.Ok? && d.value]
        && passed == old(passed) + (if d.Ok? && d.value then 1 else 0)
      ensures out == Judged(r, expected, validator, runs)
    {
      var verdict := Judged(r, expected, validator, runs + 1);
      var d := Decide(r, expected, validator);
      var success := d.Ok? && d.value;
      var listed := expected.VNull? && !r.value.VNull?;
      TallyNext(outcomes, passed, runs, withoutExpected, success, listed);
      var listedRuns := withoutExpected + (if listed then [runs + 1] else []);
      var passedNow := passed + (if success then 1 else 0);
      runs, totalTime, withoutExpected, passed, outcomes := runs + 1, totalTime + r.time, listedRuns, passedNow, outcomes + [success];
      out := verdict;
    }

    /** `Result.print_status`: the reports printed at the end of a session. */
    method PrintStatus() returns (reports: seq<Report>)
      requires Valid()
      ensures reports == Status(passed, runs, withoutExpected)
      ensures reports[0].level == InfoLevel <==> forall i :: 0 <= i < |outcomes| ==> outcomes[i]
      ensures |reports| == 2 <==> withoutExpected != []
    {
      reports := Status(passed, runs, withoutExpected);
      StatusLevels(outcomes, withoutExpected);
    }
  }
}
