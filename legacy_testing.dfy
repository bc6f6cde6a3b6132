/**
 * The legacy harness of `testing/`: `testing()` cuts the test text into
 * blocks, JSON-decodes each line, hands the lines to a test class's `parse`
 * (`ClassicTest` calls the first method of the solution class, `CommandTest`
 * builds an object and calls its methods) and validates what `run` returns
 * against the expected value; `generate_and_testing()` does the same with
 * generated arguments and a validation function. The class-level counters of
 * `Result` decide the colour of the final line.
 *
 * The solution module, the calls into it and the JSON decoder are
 * parameters, as in the current harness.
 */
module LegacyTesting {
  import opened Wrappers
  import opened Values
  import opened PyStr
  import opened General
  import opened LevelOrder
  import TestingUtils
  import Results
  import Testers

  // ---------------------------------------------------------------------------
  // the solution under test, found at import

  /** The module the legacy harness imports the code under test from. */
  const SolutionModule := "solution"

  /** The import-time lookup: the first class defined in the solution module,
      and the first of its own public functions, which every classic test
      calls. Either missing raises `NotImplementedError`. */
  function Discover(m: PyModule): (r: Result<(PyClass, PyFunction)>)
    ensures r.Ok? <==> ClassesIn(m.vars, SolutionModule) != [] && MethodNames(ClassesIn(m.vars, SolutionModule)[0].attrs) != []
    ensures r.Ok? ==> var c := ClassesIn(m.vars, SolutionModule)[0];
      r.value.0 == c && FunctionAttr(r.value.1) in c.attrs && r.value.1.name == MethodNames(c.attrs)[0]
    ensures r.Err? ==> r.error.NotImplemented?
  {
    var cs := ClassesIn(m.vars, SolutionModule);
    if cs == [] then Err(NotImplemented("Module " + SolutionModule + " has no class"))
    else
      var names := MethodNames(cs[0].attrs);
      if names == [] then Err(NotImplemented("Class " + cs[0].name + " from module " + SolutionModule + " has no methods"))
      else
        assert names[0] in names;
        MethodAlongMro(cs[0].attrs, cs[0].inherited, names[0]);
        Ok((cs[0], MethodNamed(cs[0].AlongMro(), names[0]).value))
  }

  /** What the legacy harness runs against: the solution class and its first
      method as `Discover` finds them, the classes a command may name, the
      behaviour of the solution code, and the `REQUIRED_EXPECTED_RESULT`
      setting. */
  datatype Env = Env(solution: PyClass, first: PyFunction, classes: seq<PyClass>, code: Testers.Code, required: bool)

  // ---------------------------------------------------------------------------
  // cutting the test text into blocks

  /** The line filter of `testing()`: line `i` is kept when it is the first,
      or when it and the line before it are not both blank. */
  function KeepLines(ls: seq<string>, i: nat): seq<string>
    requires i <= |ls|
    decreases |ls| - i
  {
    if i == |ls| then []
    else (if i == 0 || !(ls[i] == [] && ls[i - 1] == []) then [ls[i]] else []) + KeepLines(ls, i + 1)
  }

  /** The blocks of `testing()`: the stripped lines of the stripped text,
      filtered, joined with "\n" and split at every "\n\n". */
  function LegacyBlocks(text: string): (blocks: seq<string>)
    ensures |blocks| >= 1
  {
    Split(Join("\n", KeepLines(TestingUtils.StrippedLines(text), 0)), "\n\n")
  }

  /** On stripped lines the legacy filter is the blank-run collapse of the
      current harness. */
  lemma {:induction false} KeepLinesCollapse(ls: seq<string>, i: nat)
    requires i <= |ls|
    requires forall j :: 0 <= j < |ls| ==> Strip(ls[j]) == ls[j]
    ensures KeepLines(ls, i) == TestingUtils.Collapse(ls[i..], i > 0 && ls[i - 1] == [])
    decreases |ls| - i
  {
    if i < |ls| {
      KeepLinesCollapse(ls, i + 1);
      assert ls[i..][0] == ls[i] && ls[i..][1..] == ls[i + 1..];
    }
  }

  /** Text with at least one line cuts into the same blocks as in the current
      harness: its maximal runs of non-blank stripped lines. */
  lemma {:induction false} LegacyBlocksAgree(text: string)
    requires TestingUtils.StrippedLines(text) != []
    ensures LegacyBlocks(text) == TestingUtils.ParseTestData(text)
    ensures LegacyBlocks(text) == TestingUtils.JoinEach(TestingUtils.Groups(TestingUtils.StrippedLines(text)))
  {
    var ls := TestingUtils.StrippedLines(text);
    forall j | 0 <= j < |ls| ensures Strip(ls[j]) == ls[j] {
      StripIdempotent(SplitLines(Strip(text))[j]);
    }
    KeepLinesCollapse(ls, 0);
    assert ls[0..] == ls;
    TestingUtils.ParseTestDataBlocks(text);
  }

  /** Blank text still gives one block, and that block has no lines, where
      the current harness finds no block at all. */
  lemma {:induction false} LegacyBlankText(text: string)
    requires forall i :: 0 <= i < |text| ==> IsSpace(text[i])
    ensures LegacyBlocks(text) == [""] && SplitLines("") == []
    ensures TestingUtils.ParseTestData(text) == []
  {
    StripAllSpace(text);
    assert TestingUtils.StrippedLines(text) == [];
    assert IndexOf("", "\n\n").None?;
    TestingUtils.ParseBlankText(text);
  }

  // ---------------------------------------------------------------------------
  // proc_args_by_func, proc_result

  /** `str(param_type)` for the `inspect.Parameter` of a positional
      parameter: its name, then `: ` and the annotation when it has one, then
      the repr of its default after ` = ` (after `=` when it is not
      annotated). */
  function ParamText(p: Param): (t: string)
    ensures |p.name| <= |t| && t[..|p.name|] == p.name
  {
    p.name + (AnnotationPart(p) + DefaultPart(p))
  }

  function AnnotationPart(p: Param): string {
    if p.annotation.Empty? then "" else ": " + AnnotationText(p.annotation)
  }

  function DefaultPart(p: Param): string {
    match p.default
    case None => ""
    case Some(d) => (if p.annotation.Empty? then "=" else " = ") + Repr(d)
  }

  /** The parameter text holds the name, the annotation's text when there is
      one, and the default's repr when there is one; of an unannotated
      parameter without a default it is the name alone. */
  lemma {:induction false} ParamTextParts(p: Param, sub: string)
    ensures Contains(p.name, sub) ==> Contains(ParamText(p), sub)
    ensures !p.annotation.Empty? && Contains(AnnotationText(p.annotation), sub) ==> Contains(ParamText(p), sub)
    ensures p.default.Some? && Contains(Repr(p.default.value), sub) ==> Contains(ParamText(p), sub)
    ensures p.annotation.Empty? && p.default.None? ==> ParamText(p) == p.name
  {
    var ann, def := AnnotationPart(p), DefaultPart(p);
    ContainsConcat(p.name, ann + def, sub);
    ContainsConcat(ann, def, sub);
    if !p.annotation.Empty? {
      ContainsConcat(": ", AnnotationText(p.annotation), sub);
    }
    if p.default.Some? {
      ContainsConcat(if p.annotation.Empty? then "=" else " = ", Repr(p.default.value), sub);
    }
    if p.annotation.Empty? && p.default.None? {
      assert ann + def == [];
    }
  }

  /** `ListNode.__name__ in str(param_type)`. */
  predicate MentionsList(p: Param) {
    Contains(ParamText(p), "ListNode")
  }

  /** `TreeNode.__name__ in str(param_type)`. */
  predicate MentionsTree(p: Param) {
    Contains(ParamText(p), "TreeNode")
  }

  /** `list_to_linked_list(v) or []`: a falsy `v` builds no chain, hence
      `[]`; otherwise the chain of what `for val in v` visits. */
  function ToLinkedList(v: Value): Result<Value> {
    if Falsy(v) then Ok(VList([]))
    else
      var xs :- Iterate(v);
      Ok(VNode(ListNodeKind, xs))
  }

  /** `list_to_binary_tree(v) or []`: a falsy `v` builds no tree, hence
      `[]`; otherwise `v[0]` is the root and the rest fill the open slots,
      blocking when the slots run out. A tree is held by its level order
      without trailing `None`s, which is its shape. */
  function ToBinaryTree(v: Value): Result<Value> {
    if Falsy(v) then Ok(VList([]))
    else
      var _ :- Subscript(v, 0);
      var xs := Positional(v).value;
      if BinaryFits(xs) then Ok(VNode(BinaryTreeKind, TrimNulls(xs))) else Err(Blocked)
  }

  function Convert(tree: bool, v: Value): Result<Value> {
    if tree then ToBinaryTree(v) else ToLinkedList(v)
  }

  /** `[convert(el) for el in xs]`, stopping at the first that raises. */
  function ConvertEach(tree: bool, xs: seq<Value>): (r: Result<seq<Value>>)
    ensures r.Ok? <==> forall i :: 0 <= i < |xs| ==> Convert(tree, xs[i]).Ok?
    ensures r.Ok? ==> |r.value| == |xs| && forall i :: 0 <= i < |xs| ==> r.value[i] == Convert(tree, xs[i]).value
  {
    if xs == [] then Ok([])
    else
      var first :- Convert(tree, xs[0]);
      var rest := ConvertEach(tree, xs[1..]);
      assert forall i :: 1 <= i < |xs| ==> xs[i] == xs[1..][i - 1];
      if rest.Err? then
        assert !Convert(tree, xs[1..][0]).Ok? || exists i :: 0 <= i < |xs| - 1 && !Convert(tree, xs[1..][i]).Ok?;
        Err(rest.error)
      else Ok([first] + rest.value)
  }

  /** One node class's conversion of an argument: a non-empty list whose
      first item is a list is converted item by item, any other list as a
      whole, anything that is not a list is left alone. */
  function ConvertList(tree: bool, arg: Value): (r: Result<Value>)
    ensures !arg.VList? ==> r == Ok(arg)
  {
    if !arg.VList? then Ok(arg)
    else if arg.items != [] && arg.items[0].VList? then
      var ys :- ConvertEach(tree, arg.items);
      Ok(VList(ys))
    else Convert(tree, arg)
  }

  /** The body of the loop of `proc_args_by_func`: the `ListNode` test and
      then the `TreeNode` test, each converting a list argument when the
      annotation mentions its class. */
  function ProcArg(p: Param, arg: Value): (r: Result<Value>)
    ensures !MentionsList(p) && !MentionsTree(p) ==> r == Ok(arg)
    ensures !arg.VList? ==> r == Ok(arg)
    ensures MentionsList(p) && !MentionsTree(p) ==> r == ConvertList(false, arg)
    ensures !MentionsList(p) && MentionsTree(p) ==> r == ConvertList(true, arg)
  {
    var a :- if MentionsList(p) then ConvertList(false, arg) else Ok(arg);
    if MentionsTree(p) then ConvertList(true, a) else Ok(a)
  }

  /** `proc_args_by_func(args, func)` as a value: the loop runs over
      `zip(args, signatures)`, so there is one converted value per argument
      that has a parameter and the rest are dropped. */
  function MarshalArgs(params: seq<Param>, args: seq<Value>): Result<seq<Value>> {
    ZipConvert(ProcArg, params, args)
  }

  /** The loop of `proc_args_by_func` as a value, for any conversion of one
      argument by its parameter: the conversions of `zip(params, args)` in
      order, up to the first that raises. */
  function ZipConvert(convert: (Param, Value) -> Result<Value>, params: seq<Param>, args: seq<Value>): Result<seq<Value>>
    decreases |args|
  {
    if args == [] || params == [] then Ok([])
    else
      var first := convert(params[0], args[0]);
      if first.Err? then Err(first.error)
      else
        var rest := ZipConvert(convert, params[1..], args[1..]);
        if rest.Err? then Err(rest.error)
        else Ok([first.value] + rest.value)
  }

  /** `ZipConvert` succeeds exactly when every argument that has a parameter
      converts, and then holds one conversion per such argument. */
  lemma {:induction false} ZipConvertSpec(convert: (Param, Value) -> Result<Value>, params: seq<Param>, args: seq<Value>)
    ensures var r := ZipConvert(convert, params, args);
      && (r.Ok? <==> forall i :: 0 <= i < |args| && i < |params| ==> convert(params[i], args[i]).Ok?)
      && (r.Ok? ==> |r.value| == Testers.Min(|args|, |params|))
      && (r.Ok? ==> forall i :: 0 <= i < |r.value| ==> r.value[i] == convert(params[i], args[i]).value)
    decreases |args|
  {
    if args != [] && params != [] {
      ZipConvertSpec(convert, params[1..], args[1..]);
      assert forall i :: 1 <= i < |args| && i < |params| ==> args[i] == args[1..][i - 1] && params[i] == params[1..][i - 1];
    }
  }

  /** `MarshalArgs` succeeds exactly when every argument that has a parameter
      converts, and then holds one conversion per such argument. */
  lemma MarshalArgsSpec(params: seq<Param>, args: seq<Value>)
    ensures var r := MarshalArgs(params, args);
      && (r.Ok? <==> forall i :: 0 <= i < |args| && i < |params| ==> ProcArg(params[i], args[i]).Ok?)
      && (r.Ok? ==> |r.value| == Testers.Min(|args|, |params|))
      && (r.Ok? ==> forall i :: 0 <= i < |r.value| ==> r.value[i] == ProcArg(params[i], args[i]).value)
  {
    ZipConvertSpec(ProcArg, params, args);
  }

  /** The values done so far in front of what is still to come. */
  function Prefixed(done: seq<Value>, r: Result<seq<Value>>): Result<seq<Value>> {
    if r.Err? then Err(r.error) else Ok(done + r.value)
  }

  lemma {:induction false} PrefixedTwice(done: seq<Value>, v: Value, r: Result<seq<Value>>)
    ensures Prefixed(done, Prefixed([v], r)) == Prefixed(done + [v], r)
  {
    if r.Ok? {
      assert done + ([v] + r.value) == done + [v] + r.value;
    }
  }

  lemma {:induction false} PrefixedEmpty(r: Result<seq<Value>>)
    ensures Prefixed([], r) == r
  {
    if r.Ok? {
      assert [] + r.value == r.value;
    }
  }

  /** One turn of the loop of `proc_args_by_func`: a conversion that raises
      is the outcome, one that succeeds moves to the done values. */
  lemma {:induction false} ZipStep(convert: (Param, Value) -> Result<Value>, params: seq<Param>, args: seq<Value>, done: seq<Value>, i: nat)
    requires i < |args| && i < |params|
    requires ZipConvert(convert, params, args) == Prefixed(done, ZipConvert(convert, params[i..], args[i..]))
    ensures var c := convert(params[i], args[i]);
      && (c.Err? ==> ZipConvert(convert, params, args) == Err(c.error))
      && (c.Ok? ==> ZipConvert(convert, params, args) == Prefixed(done + [c.value], ZipConvert(convert, params[i + 1..], args[i + 1..])))
  {
    assert params[i..][0] == params[i] && args[i..][0] == args[i];
    assert params[i..][1..] == params[i + 1..] && args[i..][1..] == args[i + 1..];
    var c := convert(params[i], args[i]);
    if c.Ok? {
      PrefixedTwice(done, c.value, ZipConvert(convert, params[i + 1..], args[i + 1..]));
    }
  }

  /** The loop of `proc_args_by_func` over arguments and parameters side by
      side, appending each converted argument. */
  method ZipConvertLoop(convert: (Param, Value) -> Result<Value>, params: seq<Param>, args: seq<Value>) returns (r: Result<seq<Value>>)
    ensures r == ZipConvert(convert, params, args)
  {
    var out: seq<Value> := [];
    var i := 0;
    assert params[0..] == params && args[0..] == args;
    PrefixedEmpty(ZipConvert(convert, params, args));
    while i < |args| && i < |params|
      invariant 0 <= i <= |args| && i <= |params|
      invariant ZipConvert(convert, params, args) == Prefixed(out, ZipConvert(convert, params[i..], args[i..]))
    {
      var converted := convert(params[i], args[i]);
      ZipStep(convert, params, args, out, i);
      if converted.Err? {
        return Err(converted.error);
      }
      out := out + [converted.value];
      i := i + 1;
    }
    assert ZipConvert(convert, params[i..], args[i..]) == Ok([]);
    assert out + [] == out;
    r := Ok(out);
  }

  /** `proc_args_by_func(args, func)`: the loop with `ProcArg` as the
      conversion of each argument. */
  method ProcArgsByFunc(params: seq<Param>, args: seq<Value>) returns (r: Result<seq<Value>>)
    ensures r == MarshalArgs(params, args)
  {
    r := ZipConvertLoop(ProcArg, params, args);
  }

  /** `proc_result(result)`: a chain as the list of its values, a tree as its
      level order with every trailing falsy value popped, anything else
      unchanged. */
  function ProcResult(v: Value): (r: Value)
    ensures !v.VNode? ==> r == v
    ensures v.VNode? && v.kind != NTreeKind ==> r.VList?
  {
    match v
    case VNode(ListNodeKind, items) => VList(items)
    case VNode(BinaryTreeKind, items) => VList(TrimFalsy(items))
    case VNode(NTreeKind, _) => v
    case _ => v
  }

  /** A list argument converted into a chain and handed back as a result is
      itself again; converted into a tree it is itself without its trailing
      falsy values, as `LegacyNodes.TreeRoundTrip` builds and lists it, and a
      list with more values than slots blocks. */
  lemma {:induction false} ConvertThenProcResult(v: Value)
    requires v.VList?
    ensures ToLinkedList(v).Ok? && ProcResult(ToLinkedList(v).value) == v
    ensures ToBinaryTree(v).Ok? <==> BinaryFits(v.items)
    ensures ToBinaryTree(v).Ok? ==> ProcResult(ToBinaryTree(v).value) == VList(TrimFalsy(v.items))
    ensures ToBinaryTree(v).Err? ==> ToBinaryTree(v).error == Blocked
  {
    TrimFalsyAfterNulls(v.items);
    if v.items == [] {
      assert TrimFalsy([]) == [];
    }
  }

  // ---------------------------------------------------------------------------
  // the Result class and its counters

  /** The expected value `validate` is given, or a validation function
      (with the text `str` gives for it) whose truth value is the verdict. */
  datatype Expectation = Expect(v: Value) | Check(pred: Value -> Result<bool>, text: string)

  /** The verdict of `validate`: a validation function decides (and may
      raise); otherwise the run passes with no expected value or an equal
      one. */
  function Succeeds(value: Value, e: Expectation): (ok: Result<bool>)
    ensures e.Expect? ==> ok.Ok?
    ensures e.Expect? && e.v.VNull? ==> ok == Ok(true)
  {
    match e
    case Expect(v) => Ok(v.VNull? || PyEq(value, v))
    case Check(pred, _) => pred(value)
  }

  /** Against an expected value the legacy verdict is the classic verdict of
      the current harness. */
  lemma {:induction false} SucceedsAsClassic(value: Value, expected: Value, time: real, before: seq<Value>, after: seq<Value>)
    ensures Succeeds(value, Expect(expected)) == Results.DefaultJudge(Results.TestResult(Results.Classic, value, time, before, after), expected)
  {
  }

  /** What the legacy report prints for `v`, as a value with the same `str`:
      a legacy `TreeNode` prints through `binary_tree_to_list`, which drops
      the trailing falsy values of its level order; a legacy `ListNode`
      prints as its values; containers print their items the same way. */
  function Printed(v: Value): (r: Value)
    decreases v
  {
    match v
    case VList(xs) => VList(PrintedItems(v, xs))
    case VTuple(xs) => VTuple(PrintedItems(v, xs))
    case VDict(es) => VDict(seq(|es|, i requires 0 <= i < |es| => (es[i].0, Printed(es[i].1))))
    case VNode(kind, xs) =>
      if kind == BinaryTreeKind then
        var ys := TrimFalsy(xs);
        TrimFalsyShape(xs);
        assert forall i :: 0 <= i < |ys| ==> ys[i] == xs[i];
        VList(PrintedItems(v, ys))
      else VList(PrintedItems(v, xs))
    case _ => v
  }

  function PrintedItems(ghost owner: Value, xs: seq<Value>): (ys: seq<Value>)
    requires forall i :: 0 <= i < |xs| ==> xs[i] < owner
    ensures |ys| == |xs|
    decreases owner, 0
  {
    seq(|xs|, i requires 0 <= i < |xs| => Printed(xs[i]))
  }

  /** A value that holds no node: what `json.loads` produces. */
  predicate NodeFree(v: Value)
    decreases v
  {
    match v
    case VNode(_, _) => false
    case VList(xs) => forall i :: 0 <= i < |xs| ==> NodeFree(xs[i])
    case VTuple(xs) => forall i :: 0 <= i < |xs| ==> NodeFree(xs[i])
    case VDict(es) => forall i :: 0 <= i < |es| ==> NodeFree(es[i].1)
    case _ => true
  }

  /** A value without nodes prints as `str` prints it. */
  lemma {:induction false} PrintedNodeFree(v: Value)
    requires NodeFree(v)
    ensures Printed(v) == v
    decreases v
  {
    match v
    case VList(xs) =>
      forall i | 0 <= i < |xs| ensures Printed(xs[i]) == xs[i] { PrintedNodeFree(xs[i]); }
      assert PrintedItems(v, xs) == xs;
    case VTuple(xs) =>
      forall i | 0 <= i < |xs| ensures Printed(xs[i]) == xs[i] { PrintedNodeFree(xs[i]); }
      assert PrintedItems(v, xs) == xs;
    case VDict(es) =>
      forall i | 0 <= i < |es| ensures Printed(es[i].1) == es[i].1 { PrintedNodeFree(es[i].1); }
      assert seq(|es|, i requires 0 <= i < |es| => (es[i].0, Printed(es[i].1))) == es;
    case _ =>
  }

  /** `proc_value`: a string in double quotes, anything else as `str` gives
      it, a legacy tree with its trailing falsy values dropped. */
  function ProcValue(v: Value): (s: string)
    ensures v.VStr? ==> |s| == |v.s| + 2 && s[0] == '"' && s[|s| - 1] == '"'
    ensures !v.VStr? ==> s == Repr(Printed(v))
  {
    if v.VStr? then "\"" + v.s + "\"" else Str(Printed(v))
  }

  /** A tree argument converted from a JSON list `v` prints as the list
      `binary_tree_to_list` gives back for it: `v` without its trailing
      falsy values, so `[1, 0]` prints as `[1]`. */
  lemma {:induction false} ProcValueOfTree(v: Value)
    requires v.VList? && NodeFree(v) && ToBinaryTree(v).Ok?
    ensures ProcValue(ToBinaryTree(v).value) == Repr(VList(TrimFalsy(v.items)))
    ensures ProcValue(ToBinaryTree(v).value) == Repr(ProcResult(ToBinaryTree(v).value))
  {
    ConvertThenProcResult(v);
    var t := ToBinaryTree(v).value;
    var ys := TrimFalsy(v.items);
    TrimFalsyShape(v.items);
    forall i | 0 <= i < |ys| ensures Printed(ys[i]) == ys[i] {
      assert ys[i] == v.items[i];
      PrintedNodeFree(v.items[i]);
    }
    if Falsy(v) {
      assert t == VList([]) && v.items == [];
      assert TrimFalsy([]) == [];
    } else {
      TrimFalsyAfterNulls(v.items);
      assert t == VNode(BinaryTreeKind, TrimNulls(v.items));
      TrimFalsyShape(t.items);
      assert PrintedItems(t, TrimFalsy(t.items)) == ys;
    }
  }

  /** `[1, 0]` for a `TreeNode` parameter is shown as `[1]`. */
  lemma {:induction false} TreeArgumentTrimmed()
    ensures ProcValue(VNode(BinaryTreeKind, [VInt(1), VInt(0)])) == "[1]"
  {
    var t := VNode(BinaryTreeKind, [VInt(1), VInt(0)]);
    assert [VInt(1), VInt(0)][..1] == [VInt(1)];
    assert TrimFalsy([VInt(1), VInt(0)]) == [VInt(1)];
    assert PrintedItems(t, [VInt(1)]) == [VInt(1)];
    assert Printed(t) == VList([VInt(1)]);
  }

  function ProcValues(vs: seq<Value>): (ss: seq<string>)
    ensures |ss| == |vs| && forall i :: 0 <= i < |vs| ==> ss[i] == ProcValue(vs[i])
  {
    seq(|vs|, i requires 0 <= i < |vs| => ProcValue(vs[i]))
  }

  /** The banner of run `n`. */
  function Banner(n: nat): string {
    TestingUtils.Repeat("=", 20) + " TEST " + NatToString(n) + " " + TestingUtils.Repeat("=", 20)
  }

  /** What `str(expected)` shows on a failure. */
  function ExpectedText(e: Expectation): string {
    match e
    case Expect(v) => Str(v)
    case Check(_, t) => t
  }

  predicate EndsWith(s: string, t: string) {
    |t| <= |s| && s[|s| - |t|..] == t
  }

  /** `a` is the front and `b` the end of `a + b`. */
  lemma {:induction false} Ends(a: string, b: string)
    ensures (a + b)[..|a|] == a && EndsWith(a + b, b)
  {
    assert (a + b)[|a|..] == b;
  }

  /** The lines after the arguments, for a value printed as `shown`: the
      Result line, with two extra spaces on failure, and on failure only the
      Expected line. */
  function Verdict(shown: string, success: bool, expected: string): (t: string)
  {
    if success then "\nResult: " + shown
    else "\nResult:   " + shown + "\nExpected: " + expected
  }

  /** The report of run `n` without its colours and its time line: the
      banner, one line per argument, then the Result line, which carries two
      extra spaces and is followed by the Expected line exactly on failure. */
  function Message(n: nat, args: seq<Value>, value: Value, success: bool, expected: string): (m: string)
    ensures |Banner(n)| <= |m| && m[..|Banner(n)|] == Banner(n)
    ensures success ==> EndsWith(m, "\nResult: " + Str(Printed(value)))
    ensures !success ==> EndsWith(m, "\nResult:   " + Str(Printed(value)) + "\nExpected: " + expected)
  {
    var lines := "\n" + Join("\n", ProcValues(args));
    var tail := Verdict(Str(Printed(value)), success, expected);
    Ends(Banner(n), lines + tail);
    Ends(lines, tail);
    assert Banner(n) + (lines + tail) == Banner(n) + lines + tail;
    Banner(n) + (lines + tail)
  }

  /** The colour of the final line. */
  datatype Colour = Green | Yellow

  /** The class-level counters of `Result`, shared by every run. */
  class ResultCounts {
    var runs: nat
    var passed: nat
    /** The verdict of every run so far, false where the validation function raised. */
    ghost var outcomes: seq<bool>

    ghost predicate Valid()
      reads this
    {
      runs == |outcomes| && passed == Results.CountTrue(outcomes)
    }

    constructor ()
      ensures Valid() && runs == 0 && passed == 0 && outcomes == []
    {
      runs := 0;
      passed := 0;
      outcomes := [];
    }

    /** `Result.validate`: counts the run, decides (a validation function
        may raise, after the run is counted), counts a pass and builds the
        report under the banner of the new run number. */
    method Validate(value: Value, args: seq<Value>, e: Expectation) returns (r: Result<(bool, string)>)
      requires Valid()
      modifies this
      ensures Valid()
      ensures runs == old(runs) + 1
      ensures var d := Succeeds(value, e);
        && outcomes == old(outcomes) + [d.Ok? && d.value]
        && passed == old(passed) + (if d.Ok? && d.value then 1 else 0)
        && (r.Err? <==> d.Err?)
        && (r.Err? ==> r.error == d.error)
        && (r.Ok? ==> r.value == (d.value, Message(runs, args, value, d.value, ExpectedText(e))))
    {
      runs := runs + 1;
      var d := Succeeds(value, e);
      var success := d.Ok? && d.value;
      Results.CountTrueSnoc(outcomes, success);
      passed := passed + (if success then 1 else 0);
      outcomes := outcomes + [success];
      if d.Err? {
        return Err(d.error);
      }
      r := Ok((d.value, Message(runs, args, value, d.value, ExpectedText(e))));
    }

    /** `print_test_results`: green exactly when every run so far passed. */
    method PrintTestResults() returns (colour: Colour, text: string)
      requires Valid()
      ensures colour == Green <==> passed == runs
      ensures colour == Green <==> forall i :: 0 <= i < |outcomes| ==> outcomes[i]
      ensures text == "Tests passed: " + NatToString(passed) + "/" + NatToString(runs)
    {
      Results.CountTrueAll(outcomes);
      colour := if passed == runs then Green else Yellow;
      text := "Tests passed: " + NatToString(passed) + "/" + NatToString(runs);
    }
  }

  // ---------------------------------------------------------------------------
  // ClassicTest

  /** `ClassicTest.parse`: the first `N` lines are the arguments, `N` being
      the number of parameters of the first solution method with defaults
      included, line `N` is the expected value if present and later lines
      are ignored; the arguments are then converted by `proc_args_by_func`. */
  function ClassicParse(env: Env, lines: seq<Value>): (r: Result<(seq<Value>, Value)>)
    ensures r.Ok? ==> |lines| >= |env.first.params| && |r.value.0| == |env.first.params|
    ensures r.Ok? ==> r.value.1 == if |lines| > |env.first.params| then lines[|env.first.params|] else VNull
    ensures r.Ok? && env.required ==> !Falsy(r.value.1)
    ensures env.code.construct(env.solution, []).Ok? && |lines| < |env.first.params| ==>
      r == Err(TestDataError("Incorrect number of arguments"))
    ensures r.Ok? ==> MarshalArgs(env.first.params, lines[..|env.first.params|]).Ok?
    ensures r.Ok? ==> r.value.0 == MarshalArgs(env.first.params, lines[..|env.first.params|]).value
    ensures r.Ok? <==>
      && env.code.construct(env.solution, []).Ok?
      && |lines| >= |env.first.params|
      && !(env.required && |lines| == |env.first.params|)
      && !(env.required && |lines| > |env.first.params| && Falsy(lines[|env.first.params|]))
      && MarshalArgs(env.first.params, lines[..|env.first.params|]).Ok?
  {
    var _ :- env.code.construct(env.solution, []);
    var n := |env.first.params|;
    if |lines| < n then Err(TestDataError("Incorrect number of arguments"))
    else
      var expected := if |lines| > n then lines[n] else VNull;
      if env.required && Falsy(expected) then Err(TestDataError("Expected result not specified"))
      else
        MarshalArgsSpec(env.first.params, lines[..n]);
        var args :- MarshalArgs(env.first.params, lines[..n]);
        Ok((args, expected))
  }

  /** Lines after the expected value do not change what `parse` returns. */
  lemma {:induction false} ClassicParseIgnoresExtra(env: Env, lines: seq<Value>, extra: seq<Value>)
    requires |lines| > |env.first.params|
    ensures ClassicParse(env, lines + extra) == ClassicParse(env, lines)
  {
    var n := |env.first.params|;
    assert (lines + extra)[..n] == lines[..n];
    assert (lines + extra)[n] == lines[n];
  }

  /** `ClassicTest.run`: the first method called on a new solution object
      with copies of the arguments; the result shows the arguments as they
      were and the value as `proc_result` converts it. */
  function ClassicRun(env: Env, args: seq<Value>): (r: Result<(Value, seq<Value>)>)
    ensures r.Ok? ==> r.value.1 == args
    ensures r.Ok? ==> !r.value.0.VNode? || r.value.0.kind == NTreeKind
  {
    var obj :- env.code.construct(env.solution, []);
    var step :- env.code.invoke(obj, env.first, args);
    Ok((ProcResult(step.1.value), args))
  }

  // ---------------------------------------------------------------------------
  // CommandTest

  /** `CommandTest.parse`: two or three lines, the commands, their argument
      lists and optionally the expected results. */
  function CommandParse(env: Env, lines: seq<Value>): (r: Result<(Value, Value, Value)>)
    ensures r.Ok? <==> (|lines| == 2 || |lines| == 3) && !(env.required && (|lines| == 2 || Falsy(lines[2])))
    ensures r.Ok? ==> r.value == (lines[0], lines[1], if |lines| == 3 then lines[2] else VNull)
    ensures !(|lines| == 2 || |lines| == 3) ==> r == Err(TestDataError("Incorrect data format"))
  {
    if |lines| != 2 && |lines| != 3 then Err(TestDataError("Incorrect data format"))
    else
      var expectations := if |lines| >= 3 then lines[2] else VNull;
      if env.required && Falsy(expectations) then Err(TestDataError("Expected result not specified"))
      else Ok((lines[0], lines[1], expectations))
  }

  predicate AllStrings(xs: seq<Value>) {
    forall i :: 0 <= i < |xs| ==> xs[i].VStr?
  }

  /** One command: the method looked up on the instance's class, its
      arguments converted by `proc_args_by_func` (one per parameter), and
      the call, which may change the instance. */
  function CommandStep(c: PyClass, code: Testers.Code, obj: Testers.Instance, name: string, list: Value): Result<(Testers.Instance, Value)> {
    var f :- Testers.AttrFunction(c, name);
    var raw :- Iterate(list);
    var margs :- MarshalArgs(f.params, raw);
    var step :- code.invoke(obj, f, margs);
    Ok((step.0, step.1.value))
  }

  /** The commands after the first, zipped with their argument lists: one
      raw result per command, each call seeing the instance the previous
      calls left. */
  function Commands(c: PyClass, code: Testers.Code, obj: Testers.Instance, names: seq<Value>, lists: seq<Value>): (r: Result<seq<Value>>)
    requires AllStrings(names)
    ensures r.Ok? ==> |r.value| == Testers.Min(|names|, |lists|)
    decreases |names|
  {
    if names == [] || lists == [] then Ok([])
    else
      var step :- CommandStep(c, code, obj, names[0].s, lists[0]);
      var rest :- Commands(c, code, step.0, names[1..], lists[1..]);
      Ok([step.1] + rest)
  }

  const CommandFormatMessage := "Incorrect command format: commands must be a list of strings"
  const ArgumentFormatMessage := "Incorrect command argument format: arguments must be in a list"

  /** `CommandTest.run` as a value: the checks on the two lines, the class
      named by the first command, the instance built from the first argument
      list, then the commands; the results start with `None` for the
      constructor and the report shows the two lines as given. */
  function CommandRunSpec(env: Env, commands: Value, argsList: Value): (r: Result<(Value, seq<Value>)>)
    ensures !commands.VList? || !AllStrings(commands.items) ==> r == Err(TestDataError(CommandFormatMessage))
    ensures commands.VList? && AllStrings(commands.items) && !argsList.VList? ==> r == Err(TestDataError(ArgumentFormatMessage))
    ensures r.Ok? ==> commands.VList? && argsList.VList? && commands.items != [] && argsList.items != []
    ensures r.Ok? ==> r.value.1 == [commands, argsList]
    ensures r.Ok? ==> var v := r.value.0;
      v.VList? && |v.items| == 1 + Testers.Min(|commands.items| - 1, |argsList.items| - 1) && v.items[0] == VNull
  {
    if !commands.VList? || !AllStrings(commands.items) then Err(TestDataError(CommandFormatMessage))
    else if !argsList.VList? then Err(TestDataError(ArgumentFormatMessage))
    else if commands.items == [] then Err(IndexError)
    else
      match ClassNamed(env.classes, commands.items[0].s)
      case None => Err(NameError)
      case Some(c) =>
        if argsList.items == [] then Err(IndexError)
        else
          var ctorArgs :- Iterate(argsList.items[0]);
          var obj :- env.code.construct(c, ctorArgs);
          var results :- Commands(c, env.code, obj, commands.items[1..], argsList.items[1..]);
          Ok((VList([VNull] + results), [commands, argsList]))
  }

  /** One turn of the loop of `CommandTest.run`: a command that raises is
      the outcome, one that returns adds its result and hands on the
      instance. */
  lemma {:induction false} CommandsStep(c: PyClass, code: Testers.Code, obj0: Testers.Instance, obj: Testers.Instance,
                                        names: seq<Value>, lists: seq<Value>, done: seq<Value>, i: nat)
    requires AllStrings(names) && i < |names| && i < |lists|
    requires Commands(c, code, obj0, names, lists) == Prefixed(done, Commands(c, code, obj, names[i..], lists[i..]))
    ensures var step := CommandStep(c, code, obj, names[i].s, lists[i]);
      && (step.Err? ==> Commands(c, code, obj0, names, lists) == Err(step.error))
      && (step.Ok? ==> Commands(c, code, obj0, names, lists)
                       == Prefixed(done + [step.value.1], Commands(c, code, step.value.0, names[i + 1..], lists[i + 1..])))
  {
    assert names[i..][0] == names[i] && lists[i..][0] == lists[i];
    assert names[i..][1..] == names[i + 1..] && lists[i..][1..] == lists[i + 1..];
    var step := CommandStep(c, code, obj, names[i].s, lists[i]);
    if step.Ok? {
      PrefixedTwice(done, step.value.1, Commands(c, code, step.value.0, names[i + 1..], lists[i + 1..]));
    }
  }

  /** One command of `CommandTest.run`: `getattr(obj, command)`, the
      arguments through `proc_args_by_func`, and the call. */
  method RunCommand(c: PyClass, code: Testers.Code, obj: Testers.Instance, name: string, list: Value)
    returns (r: Result<(Testers.Instance, Value)>)
    ensures r == CommandStep(c, code, obj, name, list)
  {
    var f := Testers.AttrFunction(c, name);
    if f.Err? {
      return Err(f.error);
    }
    var raw := Iterate(list);
    if raw.Err? {
      return Err(raw.error);
    }
    var margs := ProcArgsByFunc(f.value.params, raw.value);
    if margs.Err? {
      return Err(margs.error);
    }
    var step := code.invoke(obj, f.value, margs.value);
    if step.Err? {
      return Err(step.error);
    }
    r := Ok((step.value.0, step.value.1.value));
  }

  /** The loop of `CommandTest.run` over the commands after the first. */
  method RunCommands(c: PyClass, code: Testers.Code, obj0: Testers.Instance, names: seq<Value>, lists: seq<Value>) returns (r: Result<seq<Value>>)
    requires AllStrings(names)
    ensures r == Commands(c, code, obj0, names, lists)
  {
    var results: seq<Value> := [];
    var obj := obj0;
    var i := 0;
    assert names[0..] == names && lists[0..] == lists;
    PrefixedEmpty(Commands(c, code, obj0, names, lists));
    while i < |names| && i < |lists|
      invariant 0 <= i <= |names| && i <= |lists|
      invariant Commands(c, code, obj0, names, lists) == Prefixed(results, Commands(c, code, obj, names[i..], lists[i..]))
    {
      var step := RunCommand(c, code, obj, names[i].s, lists[i]);
      CommandsStep(c, code, obj0, obj, names, lists, results, i);
      if step.Err? {
        return Err(step.error);
      }
      results := results + [step.value.1];
      obj := step.value.0;
      i := i + 1;
    }
    assert Commands(c, code, obj, names[i..], lists[i..]) == Ok([]);
    assert results + [] == results;
    r := Ok(results);
  }

  /** `CommandTest.run`. */
  method CommandRun(env: Env, commands: Value, argsList: Value) returns (r: Result<(Value, seq<Value>)>)
    ensures r == CommandRunSpec(env, commands, argsList)
  {
    if !commands.VList? || !AllStrings(commands.items) {
      return Err(TestDataError(CommandFormatMessage));
    }
    if !argsList.VList? {
      return Err(TestDataError(ArgumentFormatMessage));
    }
    if commands.items == [] {
      return Err(IndexError);
    }
    var c := ClassNamed(env.classes, commands.items[0].s);
    if c.None? {
      return Err(NameError);
    }
    if argsList.items == [] {
      return Err(IndexError);
    }
    var ctorArgs := Iterate(argsList.items[0]);
    if ctorArgs.Err? {
      return Err(ctorArgs.error);
    }
    var obj := env.code.construct(c.value, ctorArgs.value);
    if obj.Err? {
      return Err(obj.error);
    }
    var results := RunCommands(c.value, env.code, obj.value, commands.items[1..], argsList.items[1..]);
    if results.Err? {
      return Err(results.error);
    }
    r := Ok((VList([VNull] + results.value), [commands, argsList]));
  }

  // ---------------------------------------------------------------------------
  // testing(), generate_and_testing()

  /** The two test classes. */
  datatype TestClass = ClassicTest | CommandTest

  /** A test object: the arguments of a classic test, or the commands and
      argument lists of a command test. */
  datatype Test = ClassicCase(args: seq<Value>) | CommandCase(commands: Value, argsList: Value)

  /** `cls.parse(lines)`: the test and its expected value. */
  function Parse(cls: TestClass, env: Env, lines: seq<Value>): Result<(Test, Value)> {
    match cls
    case ClassicTest =>
      var p :- ClassicParse(env, lines);
      Ok((ClassicCase(p.0), p.1))
    case CommandTest =>
      var p :- CommandParse(env, lines);
      Ok((CommandCase(p.0, p.1), p.2))
  }

  /** `cls(*args)`: a classic test keeps the arguments unconverted; a command
      test needs its commands and argument lists, and hands any further
      arguments to `AbstractTest.__init__`, which ignores them. */
  function Construct(cls: TestClass, args: seq<Value>): (r: Result<Test>)
    ensures cls == ClassicTest ==> r == Ok(ClassicCase(args))
    ensures cls == CommandTest ==> (r.Ok? <==> |args| >= 2)
    ensures cls == CommandTest && r.Ok? ==> r.value == CommandCase(args[0], args[1])
    ensures r.Err? ==> r.error == TypeError
  {
    match cls
    case ClassicTest => Ok(ClassicCase(args))
    case CommandTest => if |args| >= 2 then Ok(CommandCase(args[0], args[1])) else Err(TypeError)
  }

  /** The arguments a test object is built from: a classic test's own
      arguments, a command test's commands and argument lists. */
  function ConstructorArgs(t: Test): seq<Value> {
    match t
    case ClassicCase(args) => args
    case CommandCase(commands, argsList) => [commands, argsList]
  }

  /** Building a test from the arguments `parse` built it from gives the
      same test, and a command test ignores any arguments after those. */
  lemma {:induction false} ConstructOfParsed(cls: TestClass, env: Env, lines: seq<Value>, extra: seq<Value>)
    requires Parse(cls, env, lines).Ok?
    ensures var t := Parse(cls, env, lines).value.0;
      Construct(cls, ConstructorArgs(t)) == Ok(t)
      && (cls == CommandTest ==> Construct(cls, ConstructorArgs(t) + extra) == Ok(t))
  {
    var t := Parse(cls, env, lines).value.0;
    if cls == CommandTest {
      assert t.CommandCase?;
      assert (ConstructorArgs(t) + extra)[..2] == ConstructorArgs(t);
    } else {
      assert t.ClassicCase?;
    }
  }

  /** `test.run()`: the value to validate and the arguments the report shows. */
  function Run(env: Env, t: Test): Result<(Value, seq<Value>)> {
    match t
    case ClassicCase(args) => ClassicRun(env, args)
    case CommandCase(commands, argsList) => CommandRunSpec(env, commands, argsList)
  }

  method RunTest(env: Env, t: Test) returns (r: Result<(Value, seq<Value>)>)
    ensures r == Run(env, t)
  {
    match t
    case ClassicCase(args) =>
      r := ClassicRun(env, args);
    case CommandCase(commands, argsList) =>
      r := CommandRun(env, commands, argsList);
  }

  /** A test ready for `validate`. */
  datatype Case = Case(value: Value, shown: seq<Value>, expectation: Expectation)

  /** One block of `testing()`: its lines decoded, parsed, and run. */
  function BlockCase(cls: TestClass, env: Env, decode: string -> Option<Value>, block: string): (r: Result<Case>)
    ensures r.Ok? ==> r.value.expectation.Expect?
  {
    var lines :- TestingUtils.DecodeLines(SplitLines(block), decode);
    var p :- Parse(cls, env, lines);
    var out :- Run(env, p.0);
    Ok(Case(out.0, out.1, Expect(p.1)))
  }

  /** One round of `generate_and_testing()`: the test built from the
      generated arguments, and run. */
  function DrawnCase(cls: TestClass, env: Env, args: seq<Value>, e: Expectation): Result<Case> {
    var t :- Construct(cls, args);
    var out :- Run(env, t);
    Ok(Case(out.0, out.1, e))
  }

  /** The verdicts of a session and the exception that ended it, if any. */
  datatype Session = Session(verdicts: seq<bool>, error: Option<Error>)

  /** Validating the cases in order: a case that could not be built or run
      ends the session before it is counted; a validation that raises ends
      it after it is counted as a failure. */
  function Fold(cases: seq<Result<Case>>): (s: Session)
    ensures |s.verdicts| <= |cases|
    ensures s.error.None? ==> |s.verdicts| == |cases|
  {
    if cases == [] then Session([], None)
    else if cases[0].Err? then Session([], Some(cases[0].error))
    else
      var c := cases[0].value;
      var d := Succeeds(c.value, c.expectation);
      if d.Err? then Session([false], Some(d.error))
      else
        var rest := Fold(cases[1..]);
        Session([d.value] + rest.verdicts, rest.error)
  }

  function Then(done: seq<bool>, s: Session): Session {
    Session(done + s.verdicts, s.error)
  }

  lemma {:induction false} Assoc(a: seq<bool>, b: seq<bool>, c: seq<bool>)
    ensures a + b + c == a + (b + c)
  {
  }

  /** One case validated in front of the session that follows it. */
  function Step(c: Result<Case>, rest: Session): Session {
    if c.Err? then Session([], Some(c.error))
    else
      var d := Succeeds(c.value.value, c.value.expectation);
      if d.Err? then Session([false], Some(d.error))
      else Then([d.value], rest)
  }

  /** Fold unrolled once at position `i`. */
  lemma {:induction false} FoldAt(cases: seq<Result<Case>>, i: nat)
    requires i < |cases|
    ensures Fold(cases[i..]) == Step(cases[i], Fold(cases[i + 1..]))
  {
    assert cases[i..][0] == cases[i];
    assert cases[i..][1..] == cases[i + 1..];
  }

  lemma {:induction false} ThenTwice(done: seq<bool>, b: seq<bool>, s: Session)
    ensures Then(done, Then(b, s)) == Then(done + b, s)
  {
    assert done + (b + s.verdicts) == done + b + s.verdicts;
  }

  /** Where the tests of a session come from: the blocks of `testing()`,
      JSON-decoded by `decode`, or the `count` rounds of
      `generate_and_testing()`, round `i` drawing the arguments `draws(i)`. */
  datatype Source =
    | Blocks(decode: string -> Option<Value>, blocks: seq<string>)
    | Draws(draws: nat -> seq<Value>, e: Expectation, count: int)

  /** How many tests a source holds. */
  function Count(src: Source): nat {
    match src
    case Blocks(_, blocks) => |blocks|
    case Draws(_, _, count) => if count < 0 then 0 else count
  }

  /** Test `i` of a source, built and run. */
  function CaseAt(cls: TestClass, env: Env, src: Source, i: nat): Result<Case>
    requires i < Count(src)
  {
    match src
    case Blocks(decode, blocks) => BlockCase(cls, env, decode, blocks[i])
    case Draws(draws, e, _) => DrawnCase(cls, env, draws(i), e)
  }

  /** The tests of a source, in order. */
  function Cases(cls: TestClass, env: Env, src: Source): (cs: seq<Result<Case>>)
    ensures |cs| == Count(src) && forall i :: 0 <= i < |cs| ==> cs[i] == CaseAt(cls, env, src, i)
  {
    seq(Count(src), (i: int) requires 0 <= i < Count(src) => CaseAt(cls, env, src, i))
  }

  /** One block of `testing()`. */
  method RunBlock(cls: TestClass, env: Env, decode: string -> Option<Value>, block: string) returns (r: Result<Case>)
    ensures r == BlockCase(cls, env, decode, block)
  {
    var lines := TestingUtils.DecodeLines(SplitLines(block), decode);
    if lines.Err? {
      return Err(lines.error);
    }
    var p := Parse(cls, env, lines.value);
    if p.Err? {
      return Err(p.error);
    }
    var out := RunTest(env, p.value.0);
    if out.Err? {
      return Err(out.error);
    }
    r := Ok(Case(out.value.0, out.value.1, Expect(p.value.1)));
  }

  /** One round of `generate_and_testing()`. */
  method RunDrawn(cls: TestClass, env: Env, args: seq<Value>, e: Expectation) returns (r: Result<Case>)
    ensures r == DrawnCase(cls, env, args, e)
  {
    var t := Construct(cls, args);
    if t.Err? {
      return Err(t.error);
    }
    var out := RunTest(env, t.value);
    if out.Err? {
      return Err(out.error);
    }
    r := Ok(Case(out.value.0, out.value.1, e));
  }

  /** `result.validate(expected)` for a case that was built and run (the
      report aside), or the exception that stopped it: the verdicts it adds
      and whether the session goes on. */
  method ValidateStep(counts: ResultCounts, c: Result<Case>, ghost rest: Session) returns (stop: Option<Error>, ghost added: seq<bool>)
    requires counts.Valid()
    modifies counts
    ensures counts.Valid()
    ensures counts.outcomes == old(counts.outcomes) + added
    ensures Step(c, rest) == (if stop.None? then Then(added, rest) else Session(added, stop))
  {
    if c.Err? {
      return Some(c.error), [];
    }
    var v := counts.Validate(c.value.value, c.value.shown, c.value.expectation);
    if v.Err? {
      return Some(v.error), [false];
    }
    stop, added := None, [v.value.0];
  }

  /** Test `i` of a source. */
  method RunCase(cls: TestClass, env: Env, src: Source, i: nat) returns (r: Result<Case>)
    requires i < Count(src)
    ensures r == CaseAt(cls, env, src, i)
  {
    match src
    case Blocks(decode, blocks) =>
      r := RunBlock(cls, env, decode, blocks[i]);
    case Draws(draws, e, _) =>
      r := RunDrawn(cls, env, draws(i), e);
  }

  /** Test `i` of a session built, run and validated, with the verdicts so
      far `done`: the verdicts after it, and whether the session ends here. */
  method SessionStep(counts: ResultCounts, cls: TestClass, env: Env, src: Source, i: nat, ghost done: seq<bool>)
    returns (stop: Option<Error>, ghost added: seq<bool>)
    requires i < Count(src) && counts.Valid()
    requires Fold(Cases(cls, env, src)) == Then(done, Fold(Cases(cls, env, src)[i..]))
    modifies counts
    ensures counts.Valid()
    ensures counts.outcomes == old(counts.outcomes) + added
    ensures stop.None? ==> Fold(Cases(cls, env, src)) == Then(done + added, Fold(Cases(cls, env, src)[i + 1..]))
    ensures stop.Some? ==> Fold(Cases(cls, env, src)) == Session(done + added, stop)
  {
    ghost var cases := Cases(cls, env, src);
    FoldAt(cases, i);
    var c := RunCase(cls, env, src, i);
    stop, added := ValidateStep(counts, c, Fold(cases[i + 1..]));
    ThenTwice(done, added, Fold(cases[i + 1..]));
  }

  /** The loop shared by `testing()` and `generate_and_testing()`: every
      test built, run and validated in order, the first exception ending it. */
  method RunSession(counts: ResultCounts, cls: TestClass, env: Env, src: Source) returns (stop: Option<Error>)
    requires counts.Valid()
    modifies counts
    ensures counts.Valid()
    ensures var s := Fold(Cases(cls, env, src));
      counts.outcomes == old(counts.outcomes) + s.verdicts && stop == s.error
  {
    ghost var cases := Cases(cls, env, src);
    ghost var o0 := counts.outcomes;
    ghost var done: seq<bool> := [];
    var i := 0;
    assert cases[0..] == cases && o0 + [] == o0;
    while i < Count(src)
      invariant 0 <= i <= |cases| && counts.Valid()
      invariant counts.outcomes == o0 + done
      invariant Fold(cases) == Then(done, Fold(cases[i..]))
    {
      ghost var added;
      stop, added := SessionStep(counts, cls, env, src, i, done);
      Assoc(o0, done, added);
      done := done + added;
      if stop.Some? {
        return;
      }
      i := i + 1;
    }
    assert cases[i..] == [];
    assert done + [] == done;
    stop := None;
  }

  /** `testing(cls, tests_data)`: every block parsed, run and validated in
      order, then the final line, green exactly when every run so far passed.
      The first exception ends the session. */
  method Testing(counts: ResultCounts, cls: TestClass, env: Env, decode: string -> Option<Value>, text: string) returns (r: Result<Colour>)
    requires counts.Valid()
    modifies counts
    ensures counts.Valid()
    ensures var s := Fold(Cases(cls, env, Blocks(decode, LegacyBlocks(text))));
      && counts.outcomes == old(counts.outcomes) + s.verdicts
      && (r.Err? <==> s.error.Some?)
      && (r.Err? ==> r.error == s.error.value)
    ensures r.Ok? ==> (r.value == Green <==> forall i :: 0 <= i < |counts.outcomes| ==> counts.outcomes[i])
  {
    var stop := RunSession(counts, cls, env, Blocks(decode, LegacyBlocks(text)));
    if stop.Some? {
      return Err(stop.value);
    }
    var colour, _ := counts.PrintTestResults();
    r := Ok(colour);
  }

  /** `generate_and_testing(cls, generate_args_func, validation_func,
      count)`: `count` rounds, round `i` building the test from the
      arguments `draws(i)` the generator returns and validating it with the
      validation function, then the final line. */
  method GenerateAndTesting(counts: ResultCounts, cls: TestClass, env: Env, draws: nat -> seq<Value>, validation: Value -> Result<bool>, text: string, count: int)
    returns (r: Result<Colour>)
    requires counts.Valid()
    modifies counts
    ensures counts.Valid()
    ensures var s := Fold(Cases(cls, env, Draws(draws, Check(validation, text), count)));
      && counts.outcomes == old(counts.outcomes) + s.verdicts
      && (r.Err? <==> s.error.Some?)
      && (r.Err? ==> r.error == s.error.value)
    ensures r.Ok? ==> (r.value == Green <==> forall i :: 0 <= i < |counts.outcomes| ==> counts.outcomes[i])
  {
    var stop := RunSession(counts, cls, env, Draws(draws, Check(validation, text), count));
    if stop.Some? {
      return Err(stop.value);
    }
    var colour, _ := counts.PrintTestResults();
    r := Ok(colour);
  }
}
