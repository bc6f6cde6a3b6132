/**
 * The driver of the testing engine: `testing_module`, which resolves the
 * target once and then drives every case through validation, the run and
 * the verdict, and `testing_solution`, which reads a solution's settings,
 * picks its tester and runs the test file and the settings' `TESTS` before
 * printing the summary.
 *
 * The file system and the import machinery are a `Solutions` value: the
 * solution modified last, the settings module of each solution, its solution
 * module and the text of its test file. `json.loads` is the `decode`
 * parameter. Printing is modelled by the reports each operation returns.
 */
module Testing {
  import opened Wrappers
  import opened Values
  import opened General
  import Config
  import opened TestingUtils
  import opened Results
  import opened Testers

  // ---------------------------------------------------------------------------
  // testing_module

  /** What `testing_module` works with once the module is parsed. */
  datatype Harness = Harness(strategy: Strategy, runner: Option<Runner>, code: Code, registry: seq<NodeKind>, validator: Option<Validator>)

  /** One element of the test data: a block of the test text, still to be
      split; an `(args, expected)` pair of a `TESTS` entry; or draw `k` of a
      `TESTS` generator, to be unpacked into such a pair. */
  datatype Item =
    | Block(ts: seq<Value>)
    | Given(args: Value, expected: Value)
    | Generated(draw: nat -> Result<Value>, k: nat)

  /** The `test_data` argument: a text, or a sequence of items. */
  datatype TestData = Text(text: string) | Listed(items: seq<Item>)

  /** `args, expected = value`: two elements or `ValueError`. */
  function Unpack(v: Value): (r: Result<Case>)
    ensures r.Ok? <==> Iterate(v).Ok? && |Iterate(v).value| == 2
    ensures r.Ok? ==> r.value == Case(Iterate(v).value[0], Iterate(v).value[1])
  {
    var xs :- Iterate(v);
    if |xs| != 2 then Err(ValueError) else Ok(Case(xs[0], xs[1]))
  }

  /** The case an item stands for. */
  function CaseOf(h: Harness, item: Item): (r: Result<Case>)
    ensures item.Block? ==> r == SplitCase(h.strategy, h.code, h.registry, item.ts)
    ensures item.Given? ==> r == Ok(Case(item.args, item.expected))
    ensures item.Generated? ==> (r.Ok? <==> item.draw(item.k).Ok? && Unpack(item.draw(item.k).value).Ok?)
  {
    match item
    case Block(ts) => SplitCase(h.strategy, h.code, h.registry, ts)
    case Given(args, expected) => Ok(Case(args, expected))
    case Generated(draw, k) =>
      var v :- draw(k);
      Unpack(v)
  }

  function Blocks(sets: seq<seq<Value>>): (items: seq<Item>)
    ensures |items| == |sets| && forall i :: 0 <= i < |sets| ==> items[i] == Block(sets[i])
  {
    seq(|sets|, i requires 0 <= i < |sets| => Block(sets[i]))
  }

  /** The first lines of `testing_module`: the module parsed by the tester
      class, then text data parsed into blocks before any case runs. */
  function Plan(kind: TesterKind, m: PyModule, target: string, decode: string -> Option<Value>, data: TestData): (r: Result<(Strategy, seq<Item>)>)
    ensures Resolve(kind, m, target).Err? ==> r == Err(Resolve(kind, m, target).error)
    ensures r.Ok? ==> Resolve(kind, m, target) == Ok(r.value.0)
    ensures r.Ok? && data.Listed? ==> r.value.1 == data.items
    ensures r.Ok? && data.Text? ==> ParseData(kind, data.text, decode).Ok? && r.value.1 == Blocks(ParseData(kind, data.text, decode).value)
  {
    var s :- Resolve(kind, m, target);
    match data
    case Listed(items) => Ok((s, items))
    case Text(text) =>
      var sets :- ParseData(kind, text, decode);
      Ok((s, Blocks(sets)))
  }

  /** What a stretch of the session contributes to the counters and the
      output: the verdicts of the recorded runs, the numbers of the runs
      recorded without an expected value, their time, the reports printed,
      and the exception that ended it, if any. */
  datatype Session = Session(verdicts: seq<bool>, unexpected: seq<nat>, time: real, reports: seq<Report>, stop: Option<Error>)

  const Quiet := Session([], [], 0.0, [], None)

  function Halt(e: Error): Session {
    Session([], [], 0.0, [], Some(e))
  }

  /** One stretch after another; the second one's ending ends both. */
  function Then(a: Session, b: Session): Session {
    Session(a.verdicts + b.verdicts, a.unexpected + b.unexpected, a.time + b.time, a.reports + b.reports, b.stop)
  }

  /** `result.validate(expected, validator)` for run number `n`: the run is
      counted, its verdict recorded (false where deciding raised), and its
      report printed unless deciding or the report text raised. */
  function Recorded(r: TestResult, expected: Value, validator: Option<Validator>, n: nat): (s: Session)
    ensures |s.verdicts| == 1 && s.time == r.time
    ensures s.verdicts[0] <==> Decide(r, expected, validator) == Ok(true)
    ensures s.stop.None? <==> Judged(r, expected, validator, n).Ok?
    ensures s.stop.None? ==> s.reports == [Judged(r, expected, validator, n).value.report]
    ensures s.stop.Some? ==> s.reports == []
    ensures s.unexpected == if expected.VNull? && !r.value.VNull? then [n] else []
  {
    var d := Decide(r, expected, validator);
    var v := Judged(r, expected, validator, n);
    Session([d.Ok? && d.value], if expected.VNull? && !r.value.VNull? then [n] else [], r.time,
            if v.Ok? then [v.value.report] else [], if v.Err? then Some(v.error) else None)
  }

  /** One turn of the loop of `testing_module`, after `n` runs: the case is
      formed, validated and run, and the result validated; an exception
      before the run is recorded ends the session with nothing recorded. */
  function StepSession(h: Harness, item: Item, n: nat): (s: Session)
    ensures |s.verdicts| <= 1
    ensures s.stop.None? ==> |s.verdicts| == 1 && |s.reports| == 1
    ensures s.stop.Some? ==> s.reports == []
    ensures s.unexpected == [] || (s.unexpected == [n + 1] && |s.verdicts| == 1)
  {
    match Attempt(h, item)
    case Err(e) => Halt(e)
    case Ok(run) => Recorded(run.1, run.0.expected, h.validator, n + 1)
  }

  /** The case an item stands for, validated and run. */
  function Attempt(h: Harness, item: Item): Result<(Case, TestResult)> {
    var c :- CaseOf(h, item);
    var _ :- CheckCase(h.strategy, h.code, c.args, c.expected);
    var res :- RunSpec(h.strategy, h.runner, h.code, h.registry, c.args);
    Ok((c, res))
  }

  /** A loop that stops at the first exception: each element in turn
      contributes `step(x, n)` after the `n` runs before it. */
  function Sequence<T>(step: (T, nat) -> Session, xs: seq<T>, n: nat): Session
    decreases |xs|
  {
    if xs == [] then Quiet
    else
      var first := step(xs[0], n);
      if first.stop.Some? then first else Then(first, Sequence(step, xs[1..], n + |first.verdicts|))
  }

  /** The loop invariant of `testing_module` and `testing_solution`: the
      whole loop is `done`, then the loop from element `i` on after `n`
      runs. */
  ghost predicate Remains<T>(step: (T, nat) -> Session, xs: seq<T>, i: nat, n0: nat, n: nat, done: Session) {
    i <= |xs| && Sequence(step, xs, n0) == Then(done, Sequence(step, xs[i..], n))
  }

  lemma {:induction false} RemainsStart<T>(step: (T, nat) -> Session, xs: seq<T>, n0: nat)
    ensures Remains(step, xs, 0, n0, n0, Quiet)
  {
    var s := Sequence(step, xs, n0);
    assert xs[0..] == xs;
    assert [] + s.verdicts == s.verdicts && [] + s.unexpected == s.unexpected && [] + s.reports == s.reports;
  }

  /** Past an element that raised nothing. */
  lemma {:induction false} RemainsNext<T>(step: (T, nat) -> Session, xs: seq<T>, i: nat, n0: nat, n: nat, done: Session)
    requires i < |xs| && Remains(step, xs, i, n0, n, done) && step(xs[i], n).stop.None?
    ensures Remains(step, xs, i + 1, n0, n + |step(xs[i], n).verdicts|, Then(done, step(xs[i], n)))
  {
    var first := step(xs[i], n);
    assert xs[i..][0] == xs[i];
    assert xs[i..][1..] == xs[i + 1..];
    ThenAssoc(done, first, Sequence(step, xs[i + 1..], n + |first.verdicts|));
  }

  /** At an element that raised. */
  lemma {:induction false} RemainsStop<T>(step: (T, nat) -> Session, xs: seq<T>, i: nat, n0: nat, n: nat, done: Session)
    requires i < |xs| && Remains(step, xs, i, n0, n, done) && step(xs[i], n).stop.Some?
    ensures Sequence(step, xs, n0) == Then(done, step(xs[i], n))
  {
    assert xs[i..][0] == xs[i];
  }

  /** After the last element. */
  lemma {:induction false} RemainsEnd<T>(step: (T, nat) -> Session, xs: seq<T>, n0: nat, n: nat, done: Session)
    requires Remains(step, xs, |xs|, n0, n, done)
    ensures Sequence(step, xs, n0) == Session(done.verdicts, done.unexpected, done.time, done.reports, None)
  {
    assert xs[|xs|..] == [];
    ThenQuiet(done);
  }

  /** One turn of a loop kept by `Remains`: the counters after the turn are
      the counters after `done` and the turn together. */
  lemma {:induction false} Advance<T>(step: (T, nat) -> Session, xs: seq<T>, i: nat, c0: Counters, c: Counters, done: Session, c1: Counters)
    requires i < |xs| && Remains(step, xs, i, c0.runs, c.runs, done) && c == After(c0, done)
    requires c1 == After(c, step(xs[i], c.runs))
    ensures c1 == After(c0, Then(done, step(xs[i], c.runs)))
    ensures step(xs[i], c.runs).stop.Some? ==> Sequence(step, xs, c0.runs) == Then(done, step(xs[i], c.runs))
    ensures step(xs[i], c.runs).stop.Some? && |step(xs[i], c.runs).reports| == 0 ==>
      Then(done, step(xs[i], c.runs)).reports == done.reports
    ensures step(xs[i], c.runs).stop.None? ==>
      Remains(step, xs, i + 1, c0.runs, c1.runs, Then(done, step(xs[i], c.runs)))
  {
    var first := step(xs[i], c.runs);
    AfterThen(c0, done, first);
    if first.stop.Some? {
      RemainsStop(step, xs, i, c0.runs, c.runs, done);
      if |first.reports| == 0 {
        assert done.reports + first.reports == done.reports;
      }
    } else {
      RemainsNext(step, xs, i, c0.runs, c.runs, done);
    }
  }

  function StepOf(h: Harness): (Item, nat) -> Session {
    (item: Item, n: nat) => StepSession(h, item, n)
  }

  /** `step` is one turn of the loop of `testing_module` for `h`. */
  ghost predicate StepsAgree(h: Harness, step: (Item, nat) -> Session) {
    forall item, n {:trigger StepSession(h, item, n)} :: step(item, n) == StepSession(h, item, n)
  }

  /** The loop of `testing_module` over the items, after `n` runs, up to the
      first exception. */
  function RunItems(h: Harness, items: seq<Item>, n: nat): Session {
    Sequence(StepOf(h), items, n)
  }

  /** Each step records at most one run, and exactly one, with one report,
      when it raises nothing. */
  ghost predicate OneRunEach<T(!new)>(step: (T, nat) -> Session) {
    forall x, n :: |step(x, n).verdicts| <= 1 && (step(x, n).stop.None? ==> |step(x, n).verdicts| == 1 && |step(x, n).reports| == 1)
  }

  /** The run numbers a session lists as recorded without an expected value
      are among its own runs, which follow the `n` before it. */
  ghost predicate NumbersWithin(s: Session, n: nat) {
    forall i :: 0 <= i < |s.unexpected| ==> n < s.unexpected[i] <= n + |s.verdicts|
  }

  ghost predicate StepNumbersWithin<T(!new)>(step: (T, nat) -> Session) {
    forall x, n :: NumbersWithin(step(x, n), n)
  }

  lemma {:induction false} SequenceCount<T(!new)>(step: (T, nat) -> Session, xs: seq<T>, n: nat)
    requires OneRunEach(step)
    ensures var s := Sequence(step, xs, n);
      |s.verdicts| <= |xs|
      && (s.stop.None? ==> |s.verdicts| == |xs| && |s.reports| == |xs|)
    decreases |xs|
  {
    if xs != [] {
      var first := step(xs[0], n);
      if first.stop.None? {
        SequenceCount(step, xs[1..], n + |first.verdicts|);
      }
    }
  }

  lemma {:induction false} SequenceNumbers<T(!new)>(step: (T, nat) -> Session, xs: seq<T>, n: nat)
    requires StepNumbersWithin(step)
    ensures NumbersWithin(Sequence(step, xs, n), n)
    decreases |xs|
  {
    if xs != [] {
      var first := step(xs[0], n);
      assert NumbersWithin(first, n);
      if first.stop.None? {
        var m := n + |first.verdicts|;
        SequenceNumbers(step, xs[1..], m);
        var rest := Sequence(step, xs[1..], m);
        var s := Then(first, rest);
        forall i | 0 <= i < |s.unexpected|
          ensures n < s.unexpected[i] <= n + |s.verdicts|
        {
          if i >= |first.unexpected| {
            assert s.unexpected[i] == rest.unexpected[i - |first.unexpected|];
          }
        }
      }
    }
  }

  lemma {:induction false} StepSessionCounts(h: Harness)
    ensures OneRunEach(StepOf(h)) && StepNumbersWithin(StepOf(h))
  {
    forall item, n: nat
      ensures NumbersWithin(StepOf(h)(item, n), n)
    {
      var s := StepSession(h, item, n);
      assert StepOf(h)(item, n) == s;
    }
  }

  /** Every item that is reached records at most one run; when no exception
      ends the loop, each item records exactly one run and prints one
      report. */
  lemma {:induction false} RunItemsCount(h: Harness, items: seq<Item>, n: nat)
    ensures var s := RunItems(h, items, n);
      |s.verdicts| <= |items|
      && (s.stop.None? ==> |s.verdicts| == |items| && |s.reports| == |items|)
  {
    StepSessionCounts(h);
    SequenceCount(StepOf(h), items, n);
  }

  /** The run numbers recorded without an expected value follow the runs
      before them. */
  lemma {:induction false} RunItemsNumbers(h: Harness, items: seq<Item>, n: nat)
    ensures NumbersWithin(RunItems(h, items, n), n)
  {
    StepSessionCounts(h);
    SequenceNumbers(StepOf(h), items, n);
  }

  /** A class-tester case with no expected value, as a `TESTS` entry without
      "expected" gives, is refused before anything runs. */
  lemma {:induction false} ClassTestNeedsExpected(h: Harness, args: Value, n: nat)
    requires h.strategy.ClassTester?
    ensures StepSession(h, Given(args, VNull), n).stop.Some?
    ensures StepSession(h, Given(args, VNull), n).verdicts == []
  {
    ClassNeedsExpected(h.strategy.cls, h.code, args);
  }

  lemma {:induction false} ThenQuiet(a: Session)
    ensures Then(a, Quiet) == Session(a.verdicts, a.unexpected, a.time, a.reports, None)
  {
    assert a.verdicts + [] == a.verdicts && a.unexpected + [] == a.unexpected && a.reports + [] == a.reports;
  }

  lemma {:induction false} ThenAssoc(a: Session, b: Session, c: Session)
    ensures Then(Then(a, b), c) == Then(a, Then(b, c))
  {
    assert (a.verdicts + b.verdicts) + c.verdicts == a.verdicts + (b.verdicts + c.verdicts);
    assert (a.unexpected + b.unexpected) + c.unexpected == a.unexpected + (b.unexpected + c.unexpected);
    assert (a.reports + b.reports) + c.reports == a.reports + (b.reports + c.reports);
  }

  /** The counters of a tally, as a value. */
  datatype Counters = Counters(runs: nat, totalTime: real, withoutExpected: seq<nat>, outcomes: seq<bool>)

  ghost function CountersOf(t: Tally): Counters
    reads t
  {
    Counters(t.runs, t.totalTime, t.withoutExpected, t.outcomes)
  }

  /** The counters after the session `s`, from `c`. */
  function After(c: Counters, s: Session): Counters {
    Counters(c.runs + |s.verdicts|, c.totalTime + s.time, c.withoutExpected + s.unexpected, c.outcomes + s.verdicts)
  }

  lemma {:induction false} AfterThen(c: Counters, a: Session, b: Session)
    ensures After(c, Then(a, b)) == After(After(c, a), b)
  {
    assert c.withoutExpected + (a.unexpected + b.unexpected) == (c.withoutExpected + a.unexpected) + b.unexpected;
    assert c.outcomes + (a.verdicts + b.verdicts) == (c.outcomes + a.verdicts) + b.verdicts;
  }

  /** One turn of the loop of `testing_module`: the case formed, checked,
      run and validated, with the counters moving as `StepSession` says. */
  method RunCase(obj: Tester, tally: Tally, console: Console, h: Harness, item: Item, ghost step: (Item, nat) -> Session)
    returns (r: Result<Report>)
    requires tally.Valid() && obj.strategy == h.strategy && obj.runner == h.runner && StepsAgree(h, step)
    modifies tally, console
    ensures tally.Valid()
    ensures var s := step(item, old(tally.runs));
      CountersOf(tally) == After(old(CountersOf(tally)), s)
      && (s.stop.Some? ==> r == Err(s.stop.value) && s.reports == [])
      && (s.stop.None? ==> r.Ok? && s.reports == [r.value])
  {
    ghost var c0 := CountersOf(tally);
    var a := TryCase(obj, console, h, item);
    StepOutcome(h, item, c0.runs, step, a);
    if a.Err? {
      AfterHalt(c0, a.error);
      return Err(a.error);
    }
    var verdict := tally.Validate(a.value.1, a.value.0.expected, h.validator);
    r := if verdict.Err? then Err(verdict.error) else Ok(verdict.value.report);
  }

  /** The case of an item formed, checked and run on the tester `obj`. */
  method TryCase(obj: Tester, console: Console, h: Harness, item: Item) returns (a: Result<(Case, TestResult)>)
    requires obj.strategy == h.strategy && obj.runner == h.runner
    modifies console
    ensures a == Attempt(h, item)
  {
    var c := CaseOf(h, item);
    if c.Err? {
      return Err(c.error);
    }
    var chk := CheckCase(h.strategy, h.code, c.value.args, c.value.expected);
    if chk.Err? {
      return Err(chk.error);
    }
    var res := obj.Run(console, h.code, h.registry, c.value.args);
    if res.Err? {
      return Err(res.error);
    }
    a := Ok((c.value, res.value));
  }

  /** A turn of the loop, from what its attempt gave. */
  lemma {:induction false} StepOutcome(h: Harness, item: Item, n: nat, step: (Item, nat) -> Session, a: Result<(Case, TestResult)>)
    requires StepsAgree(h, step) && a == Attempt(h, item)
    ensures step(item, n) == if a.Err? then Halt(a.error) else Recorded(a.value.1, a.value.0.expected, h.validator, n + 1)
  {
    assert step(item, n) == StepSession(h, item, n);
  }

  /** An exception before anything is recorded leaves the counters as they
      were. */
  lemma {:induction false} AfterHalt(c: Counters, e: Error)
    ensures After(c, Halt(e)) == c
  {
    assert c.withoutExpected + [] == c.withoutExpected && c.outcomes + [] == c.outcomes;
  }

  /** `testing_module(tester_class, module, test_data, target, runner,
      validator)`: the module parsed once, the runner set on the tester, then
      each case in order validated, run and judged, up to the first
      exception; the counters move exactly as the session says. */
  method TestingModule(tally: Tally, console: Console, kind: TesterKind, m: PyModule, data: TestData, target: string,
                       runner: Option<Runner>, validator: Option<Validator>, code: Code, registry: seq<NodeKind>,
                       decode: string -> Option<Value>)
    returns (r: Result<()>, reports: seq<Report>)
    requires tally.Valid()
    modifies tally, console
    ensures tally.Valid()
    ensures Plan(kind, m, target, decode, data).Err? ==>
      r == Err(Plan(kind, m, target, decode, data).error) && reports == [] && unchanged(tally)
    ensures Plan(kind, m, target, decode, data).Ok? ==>
      var plan := Plan(kind, m, target, decode, data).value;
      var s := RunItems(Harness(plan.0, runner, code, registry, validator), plan.1, old(tally.runs));
      CountersOf(tally) == After(old(CountersOf(tally)), s)
      && reports == s.reports
      && (s.stop.None? ==> r == Ok(()))
      && (s.stop.Some? ==> r == Err(s.stop.value))
  {
    var plan := Plan(kind, m, target, decode, data);
    if plan.Err? {
      return Err(plan.error), [];
    }
    var strategy, items := plan.value.0, plan.value.1;
    var obj := new Tester(strategy);
    obj.runner := runner;
    var h := Harness(strategy, runner, code, registry, validator);
    r, reports := RunCases(obj, tally, console, h, items, StepOf(h));
  }

  /** The loop of `testing_module`: the items in order, each run on the
      tester `obj`, up to the first exception. */
  method RunCases(obj: Tester, tally: Tally, console: Console, h: Harness, items: seq<Item>, ghost step: (Item, nat) -> Session)
    returns (r: Result<()>, reports: seq<Report>)
    requires tally.Valid() && obj.strategy == h.strategy && obj.runner == h.runner && StepsAgree(h, step)
    modifies tally, console
    ensures tally.Valid()
    ensures var s := Sequence(step, items, old(tally.runs));
      CountersOf(tally) == After(old(CountersOf(tally)), s)
      && reports == s.reports
      && (s.stop.None? ==> r == Ok(()))
      && (s.stop.Some? ==> r == Err(s.stop.value))
  {
    ghost var c0 := CountersOf(tally);
    ghost var done := Quiet;
    reports := [];
    var i := 0;
    RemainsStart(step, items, c0.runs);
    assert After(c0, Quiet) == c0;
    while i < |items|
      invariant 0 <= i <= |items|
      invariant tally.Valid()
      invariant done.stop.None? && reports == done.reports
      invariant CountersOf(tally) == After(c0, done)
      invariant Remains(step, items, i, c0.runs, tally.runs, done)
    {
      ghost var c := CountersOf(tally);
      ghost var first := step(items[i], c.runs);
      var out := RunCase(obj, tally, console, h, items[i], step);
      Advance(step, items, i, c0, c, done, CountersOf(tally));
      if out.Err? {
        return Err(out.error), reports;
      }
      done := Then(done, first);
      reports := reports + [out.value];
      i := i + 1;
    }
    RemainsEnd(step, items, c0.runs, tally.runs, done);
    r := Ok(());
  }

  /** An exception before anything is recorded leaves the counters and the
      reports where the session before it left them. */
  lemma {:induction false} HaltEnds(c: Counters, done: Session, e: Error)
    ensures Then(done, Halt(e)) == Session(done.verdicts, done.unexpected, done.time, done.reports, Some(e))
    ensures After(c, Then(done, Halt(e))) == After(c, done)
  {
    assert done.verdicts + [] == done.verdicts && done.unexpected + [] == done.unexpected && done.reports + [] == done.reports;
  }

  // ---------------------------------------------------------------------------
  // testing_solution

  /** A name of the settings module: unset or `None`, a value of the kind
      the engine wants, or a value of another kind. */
  datatype Setting<T> = Unset | SetTo(value: T) | SetOther

  /** The "generator" key of a `TESTS` entry: absent, falsy, or a function
      whose `k`-th call gives draw `k`. */
  datatype GeneratorField = NoGeneratorKey | FalsyGenerator | Generator(draw: nat -> Result<Value>)

  /** A `TESTS` entry: "args", "expected" (`None` when absent), "generator"
      and "count" (`None` when absent). */
  datatype TestEntry = TestEntry(args: Option<Value>, expected: Value, generator: GeneratorField, count: Value)

  /** The names `testing_solution` reads from a settings module. */
  datatype Settings = Settings(target: Setting<string>, tester: Setting<string>, validator: Setting<Validator>,
                               runner: Option<Runner>, tests: seq<TestEntry>)

  /** The solutions directory: the name of the solution modified last (if
      any), the settings module of each solution (`None` where there is
      none), its imported solution module, and its test file (if any). */
  datatype Solutions = Solutions(
    lastModified: Option<string>,
    settings: string -> Option<Settings>,
    solutionModule: string -> Result<PyModule>,
    testFile: string -> Option<string>)

  /** `range(test.get("count") or 1)`: how many draws a generator entry
      makes; a falsy count (absent, `None`, 0) gives one, a negative count
      none, and a count that is not an integer raises `TypeError`. */
  function GeneratorRuns(count: Value): (r: Result<nat>)
    ensures Falsy(count) ==> r == Ok(1)
    ensures count.VInt? && count.i > 0 ==> r == Ok(count.i)
    ensures count.VInt? && count.i < 0 ==> r == Ok(0)
    ensures count == VBool(true) ==> r == Ok(1)
    ensures r.Err? <==> !Falsy(count) && !count.VInt? && !count.VBool?
  {
    if Falsy(count) then Ok(1)
    else if count.VInt? then Ok(if count.i < 0 then 0 else count.i)
    else if count.VBool? then Ok(if count.b then 1 else 0)
    else Err(TypeError)
  }

  /** The draws of a generator entry, one item per call. */
  function Draws(draw: nat -> Result<Value>, n: nat): (items: seq<Item>)
    ensures |items| == n && forall k :: 0 <= k < n ==> items[k] == Generated(draw, k)
  {
    seq(n, k requires 0 <= k < n => Generated(draw, k))
  }

  /** A call of `testing_module` in `testing_solution`: the test file, or one
      `TESTS` entry. */
  datatype Batch = FileBatch(text: string) | EntryBatch(entry: TestEntry)

  /** The test data of a batch, `None` for a skipped entry: an entry with
      "args" gives that one case (with "generator" ignored), a falsy or absent
      generator is skipped, and the number of draws is settled before
      `testing_module` is called. */
  function BatchData(b: Batch): (r: Result<Option<TestData>>)
    ensures b.FileBatch? ==> r == Ok(Some(Text(b.text)))
    ensures b.EntryBatch? && b.entry.args.Some? ==> r == Ok(Some(Listed([Given(b.entry.args.value, b.entry.expected)])))
    ensures b.EntryBatch? && b.entry.args.None? && !b.entry.generator.Generator? ==> r == Ok(None)
    ensures b.EntryBatch? && b.entry.args.None? && b.entry.generator.Generator? ==>
      (r.Ok? <==> GeneratorRuns(b.entry.count).Ok?)
      && (r.Ok? ==> r.value == Some(Listed(Draws(b.entry.generator.draw, GeneratorRuns(b.entry.count).value))))
  {
    match b
    case FileBatch(text) => Ok(Some(Text(text)))
    case EntryBatch(e) =>
      if e.args.Some? then Ok(Some(Listed([Given(e.args.value, e.expected)])))
      else match e.generator
        case Generator(draw) =>
          var n :- GeneratorRuns(e.count);
          Ok(Some(Listed(Draws(draw, n))))
        case _ => Ok(None)
  }

  /** What `testing_solution` settles before testing. */
  datatype Prepared = Prepared(name: string, kind: TesterKind, m: PyModule, target: string,
                               runner: Option<Runner>, validator: Option<Validator>, batches: seq<Batch>)

  /** The solution's name: the one given, else the one modified last. */
  function SolutionName(name: string, sol: Solutions): string {
    if name != [] then name
    else if Config.LaunchLastModifiedSolution then (if sol.lastModified.Some? then sol.lastModified.value else [])
    else Config.SolutionDefaultName
  }

  /** The message raised for an unknown `TESTER`, as written: the string
      lacks its `f` prefix, so the braces are printed literally. */
  function TesterNotFoundAsWritten(tester: string): string {
    "Tester \"{tester}\" not found"
  }

  /** The message evidently intended: the tester's name in quotes. */
  function TesterNotFoundMessage(tester: string): string {
    "Tester \"" + tester + "\" not found"
  }

  /** As written, the message is the same whatever the tester is called. */
  lemma {:induction false} TesterMessageAsWritten(t1: string, t2: string)
    ensures TesterNotFoundAsWritten(t1) == TesterNotFoundAsWritten(t2)
    ensures TesterNotFoundAsWritten("stream ") != TesterNotFoundMessage("stream ")
  {
    assert TesterNotFoundAsWritten("stream ")[8] == '{';
    assert TesterNotFoundMessage("stream ")[8] == 's';
  }

  /** The intended message names the tester, so two names give two
      messages. */
  lemma {:induction false} TesterMessageNamesTester(t1: string, t2: string)
    ensures TesterNotFoundMessage(t1)[8..8 + |t1|] == t1
    ensures TesterNotFoundMessage(t1) == TesterNotFoundMessage(t2) ==> t1 == t2
  {
    var m1, m2 := TesterNotFoundMessage(t1), TesterNotFoundMessage(t2);
    assert m1[8..8 + |t1|] == t1;
    if m1 == m2 {
      assert |t1| == |t2|;
      assert m2[8..8 + |t2|] == t2;
    }
  }

  /** The tester class: `TESTER` when set, which must be a string naming a
      registered tester; otherwise the first that accepts the module. */
  function ChooseTester(testers: seq<TesterKind>, tester: Setting<string>, m: PyModule, name: string): (r: Result<TesterKind>)
    ensures tester.SetOther? ==> r == Err(TesterNotString)
    ensures tester.SetTo? ==> (r.Ok? <==> TesterNamed(testers, tester.value).Some?)
    ensures tester.SetTo? && r.Ok? ==> NameOf(r.value) == tester.value
    ensures tester.Unset? ==> (r.Ok? <==> TesterFor(testers, m).Some?)
    ensures tester.Unset? && r.Ok? ==> Accepts(r.value, m)
    ensures tester.Unset? && r.Err? ==> r.error == NoSuitableTester(name)
  {
    match tester
    case SetOther => Err(TesterNotString)
    case SetTo(t) =>
      (match TesterNamed(testers, t)
       case None => Err(TesterNotFound(TesterNotFoundAsWritten(t)))
       case Some(k) => Ok(k))
    case Unset =>
      match TesterFor(testers, m)
      case None => Err(NoSuitableTester(name))
      case Some(k) => Ok(k)
  }

  /** `testing_solution` up to its first call of `testing_module`: the name,
      the settings (all unset without a settings module), the solution
      module, the tester class, then the checks of `VALIDATOR` and `TARGET`;
      the batches are the test file (empty text when there is none) and,
      with a settings module, one per `TESTS` entry. */
  function Prepare(name: string, sol: Solutions, testers: seq<TesterKind>): (r: Result<Prepared>)
    ensures SolutionName(name, sol) == [] ==> r == Err(NoSolutions)
    ensures r.Ok? ==> r.value.name == SolutionName(name, sol) != [] && sol.solutionModule(r.value.name) == Ok(r.value.m)
    ensures r.Ok? ==> |r.value.batches| >= 1 && r.value.batches[0] == FileBatch(
      if sol.testFile(r.value.name).Some? then sol.testFile(r.value.name).value else [])
    ensures r.Ok? ==> var st := sol.settings(r.value.name);
      |r.value.batches| == 1 + (if st.Some? then |st.value.tests| else 0)
      && (st.Some? ==> forall i :: 0 <= i < |st.value.tests| ==> r.value.batches[i + 1] == EntryBatch(st.value.tests[i]))
  {
    var chosen := SolutionName(name, sol);
    if chosen == [] then Err(NoSolutions)
    else
      var st := sol.settings(chosen);
      var settings := if st.Some? then st.value else Settings(Unset, Unset, Unset, None, []);
      var m :- sol.solutionModule(chosen);
      var kind :- ChooseTester(testers, settings.tester, m, chosen);
      if settings.validator.SetOther? then Err(ValidatorNotFunction)
      else if settings.target.SetOther? then Err(TargetNotString)
      else
        var text := if sol.testFile(chosen).Some? then sol.testFile(chosen).value else [];
        Ok(Prepared(chosen, kind, m, if settings.target.SetTo? then settings.target.value else [],
                    settings.runner, if settings.validator.SetTo? then Some(settings.validator.value) else None,
                    Batches(text, settings.tests)))
  }

  /** The batches of `testing_solution`: the test file, then one per `TESTS`
      entry. */
  function Batches(text: string, tests: seq<TestEntry>): (bs: seq<Batch>)
    ensures |bs| == 1 + |tests| && bs[0] == FileBatch(text)
    ensures forall i :: 0 <= i < |tests| ==> bs[i + 1] == EntryBatch(tests[i])
  {
    [FileBatch(text)] + seq(|tests|, i requires 0 <= i < |tests| => EntryBatch(tests[i]))
  }

  /** One call of `testing_module` in `testing_solution`, after `n` runs. */
  function BatchSession(p: Prepared, b: Batch, code: Code, registry: seq<NodeKind>, decode: string -> Option<Value>, n: nat): Session {
    var d := BatchData(b);
    if d.Err? then Halt(d.error)
    else if d.value.None? then Quiet
    else
      var plan := Plan(p.kind, p.m, p.target, decode, d.value.value);
      if plan.Err? then Halt(plan.error)
      else RunItems(Harness(plan.value.0, p.runner, code, registry, p.validator), plan.value.1, n)
  }

  function BatchStep(p: Prepared, code: Code, registry: seq<NodeKind>, decode: string -> Option<Value>): (Batch, nat) -> Session {
    (b: Batch, n: nat) => BatchSession(p, b, code, registry, decode, n)
  }

  /** The batches in order, up to the first exception. */
  function RunBatches(p: Prepared, bs: seq<Batch>, code: Code, registry: seq<NodeKind>, decode: string -> Option<Value>, n: nat): Session {
    Sequence(BatchStep(p, code, registry, decode), bs, n)
  }

  /** Over the whole of `testing_solution`, the run numbers listed as
      recorded without an expected value are among the session's runs. */
  lemma {:induction false} RunBatchesNumbers(p: Prepared, bs: seq<Batch>, code: Code, registry: seq<NodeKind>, decode: string -> Option<Value>, n: nat)
    ensures NumbersWithin(RunBatches(p, bs, code, registry, decode, n), n)
  {
    var step := BatchStep(p, code, registry, decode);
    forall b, k: nat
      ensures NumbersWithin(step(b, k), k)
    {
      assert step(b, k) == BatchSession(p, b, code, registry, decode, k);
      var d := BatchData(b);
      if d.Ok? && d.value.Some? {
        var plan := Plan(p.kind, p.m, p.target, decode, d.value.value);
        if plan.Ok? {
          RunItemsNumbers(Harness(plan.value.0, p.runner, code, registry, p.validator), plan.value.1, k);
        }
      }
    }
    SequenceNumbers(step, bs, n);
  }

  /** A generator entry whose count is not a number stops the session with
      `TypeError` before the module is parsed or anything is drawn. */
  lemma {:induction false} CountCheckedFirst(p: Prepared, draw: nat -> Result<Value>, expected: Value, count: Value,
                                             code: Code, registry: seq<NodeKind>, decode: string -> Option<Value>, n: nat)
    requires !Falsy(count) && !count.VInt? && !count.VBool?
    ensures BatchSession(p, EntryBatch(TestEntry(None, expected, Generator(draw), count)), code, registry, decode, n) == Halt(TypeError)
  {
  }

  /** A generator entry with no count, or a count of 0, draws once. */
  lemma {:induction false} ZeroCountDrawsOnce(draw: nat -> Result<Value>, expected: Value, count: Value)
    requires count == VNull || count == VInt(0)
    ensures BatchData(EntryBatch(TestEntry(None, expected, Generator(draw), count))) == Ok(Some(Listed([Generated(draw, 0)])))
  {
    assert Draws(draw, 1) == [Generated(draw, 0)];
  }

  /** `step` is one call of `testing_module` in `testing_solution` for `p`. */
  ghost predicate BatchStepsAgree(p: Prepared, code: Code, registry: seq<NodeKind>, decode: string -> Option<Value>,
                                  step: (Batch, nat) -> Session) {
    forall b, n {:trigger BatchSession(p, b, code, registry, decode, n)} :: step(b, n) == BatchSession(p, b, code, registry, decode, n)
  }

  /** One batch of `testing_solution`: a skipped entry does nothing, and
      otherwise `testing_module` runs on the batch's data. */
  method RunBatch(tally: Tally, console: Console, p: Prepared, b: Batch, code: Code, registry: seq<NodeKind>,
                  decode: string -> Option<Value>, ghost step: (Batch, nat) -> Session)
    returns (r: Result<()>, printed: seq<Report>)
    requires tally.Valid() && BatchStepsAgree(p, code, registry, decode, step)
    modifies tally, console
    ensures tally.Valid()
    ensures var s := step(b, old(tally.runs));
      CountersOf(tally) == After(old(CountersOf(tally)), s)
      && printed == s.reports
      && (s.stop.None? ==> r == Ok(()))
      && (s.stop.Some? ==> r == Err(s.stop.value))
  {
    ghost var c0 := CountersOf(tally);
    assert step(b, c0.runs) == BatchSession(p, b, code, registry, decode, c0.runs);
    var d := BatchData(b);
    if d.Err? {
      AfterHalt(c0, d.error);
      return Err(d.error), [];
    }
    if d.value.None? {
      assert After(c0, Quiet) == c0;
      return Ok(()), [];
    }
    r, printed := TestingModule(tally, console, p.kind, p.m, d.value.value, p.target, p.runner, p.validator, code, registry, decode);
    if Plan(p.kind, p.m, p.target, decode, d.value.value).Err? {
      AfterHalt(c0, r.error);
    }
  }

  /** The loop of `testing_solution` over the batches, up to the first
      exception. */
  method RunBatchList(tally: Tally, console: Console, p: Prepared, code: Code, registry: seq<NodeKind>,
                      decode: string -> Option<Value>, ghost step: (Batch, nat) -> Session)
    returns (r: Result<()>, reports: seq<Report>)
    requires tally.Valid() && BatchStepsAgree(p, code, registry, decode, step)
    modifies tally, console
    ensures tally.Valid()
    ensures var s := Sequence(step, p.batches, old(tally.runs));
      CountersOf(tally) == After(old(CountersOf(tally)), s)
      && reports == s.reports
      && (s.stop.None? ==> r == Ok(()))
      && (s.stop.Some? ==> r == Err(s.stop.value))
  {
    ghost var c0 := CountersOf(tally);
    ghost var done := Quiet;
    reports := [];
    var i := 0;
    RemainsStart(step, p.batches, c0.runs);
    assert After(c0, Quiet) == c0;
    while i < |p.batches|
      invariant 0 <= i <= |p.batches|
      invariant tally.Valid()
      invariant done.stop.None? && reports == done.reports
      invariant CountersOf(tally) == After(c0, done)
      invariant Remains(step, p.batches, i, c0.runs, tally.runs, done)
    {
      ghost var c := CountersOf(tally);
      ghost var first := step(p.batches[i], c.runs);
      var res, printed := RunBatch(tally, console, p, p.batches[i], code, registry, decode, step);
      Advance(step, p.batches, i, c0, c, done, CountersOf(tally));
      if res.Err? {
        return res, reports + printed;
      }
      done := Then(done, first);
      reports := reports + printed;
      i := i + 1;
    }
    RemainsEnd(step, p.batches, c0.runs, tally.runs, done);
    r := Ok(());
  }

  /** `testing_solution(solution_name)`: everything prepared, each batch
      run in order up to the first exception, and the summary printed only
      when none was raised; the summary is at the info level exactly when
      every run of the session passed. */
  method TestingSolution(tally: Tally, console: Console, name: string, sol: Solutions, testers: seq<TesterKind>,
                         code: Code, registry: seq<NodeKind>, decode: string -> Option<Value>)
    returns (r: Result<()>, reports: seq<Report>)
    requires tally.Valid()
    modifies tally, console
    ensures tally.Valid()
    ensures Prepare(name, sol, testers).Err? ==>
      r == Err(Prepare(name, sol, testers).error) && reports == [] && unchanged(tally)
    ensures Prepare(name, sol, testers).Ok? ==>
      var p := Prepare(name, sol, testers).value;
      var s := RunBatches(p, p.batches, code, registry, decode, old(tally.runs));
      CountersOf(tally) == After(old(CountersOf(tally)), s)
      && (s.stop.Some? ==> r == Err(s.stop.value) && reports == s.reports)
      && (s.stop.None? ==> r == Ok(()) && reports == s.reports + Status(tally.passed, tally.runs, tally.withoutExpected))
    ensures Prepare(name, sol, testers).Ok? && r.Ok? && old(tally.outcomes) == [] ==>
      var s := RunBatches(Prepare(name, sol, testers).value, Prepare(name, sol, testers).value.batches, code, registry, decode, old(tally.runs));
      (reports[|s.reports|].level == InfoLevel <==> forall i :: 0 <= i < |s.verdicts| ==> s.verdicts[i])
  {
    var prepared := Prepare(name, sol, testers);
    if prepared.Err? {
      return Err(prepared.error), [];
    }
    r, reports := RunPrepared(tally, console, prepared.value, code, registry, decode,
                              BatchStep(prepared.value, code, registry, decode));
  }

  /** The batches of a prepared solution run in order, then the summary
      when nothing was raised. `step` is the batch step (`BatchStep`). */
  method RunPrepared(tally: Tally, console: Console, p: Prepared, code: Code, registry: seq<NodeKind>,
                     decode: string -> Option<Value>, ghost step: (Batch, nat) -> Session)
    returns (r: Result<()>, reports: seq<Report>)
    requires tally.Valid() && BatchStepsAgree(p, code, registry, decode, step)
    modifies tally, console
    ensures tally.Valid()
    ensures var s := Sequence(step, p.batches, old(tally.runs));
      CountersOf(tally) == After(old(CountersOf(tally)), s)
      && (s.stop.Some? ==> r == Err(s.stop.value) && reports == s.reports)
      && (s.stop.None? ==> r == Ok(()) && reports == s.reports + Status(tally.passed, tally.runs, tally.withoutExpected))
    ensures r.Ok? && old(tally.outcomes) == [] ==>
      var s := Sequence(step, p.batches, old(tally.runs));
      |reports| > |s.reports| && (reports[|s.reports|].level == InfoLevel <==> forall i :: 0 <= i < |s.verdicts| ==> s.verdicts[i])
  {
    ghost var c0 := CountersOf(tally);
    r, reports := RunBatchList(tally, console, p, code, registry, decode, step);
    if r.Ok? {
      reports := PrintSummary(tally, Sequence(step, p.batches, c0.runs), c0, reports);
    }
  }

  /** The summary `testing_solution` prints after the session `s`, which
      raised nothing, has left the counters at `After(c0, s)`. */
  method PrintSummary(tally: Tally, ghost s: Session, ghost c0: Counters, printed: seq<Report>)
    returns (reports: seq<Report>)
    requires tally.Valid() && CountersOf(tally) == After(c0, s)
    ensures reports == printed + Status(tally.passed, tally.runs, tally.withoutExpected)
    ensures c0.outcomes == [] ==>
      |reports| > |printed| && (reports[|printed|].level == InfoLevel <==> forall i :: 0 <= i < |s.verdicts| ==> s.verdicts[i])
  {
    var summary := tally.PrintStatus();
    assert |summary| >= 1;
    reports := printed + summary;
    assert reports[|printed|] == summary[0];
    if c0.outcomes == [] {
      assert tally.outcomes == s.verdicts;
    }
  }
}
