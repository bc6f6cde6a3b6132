/**
 * The testers: the four ways the harness drives a solution module (one
 * function, one method of the `Solution` class, a class driven by a list of
 * commands, a `main` that reads standard input), and the registry that picks
 * one of them for a module.
 *
 * The code under test is an oracle: calling a function, constructing an
 * instance, calling a method on it and running `main` on a given input are
 * fields of a `Code` value, as is the time a call takes. A settings module's
 * `RUNNER` is a function of the same kind.
 */
module Testers {
  import opened Wrappers
  import opened Values
  import opened PyStr
  import opened General
  import Config
  import opened TestingUtils
  import opened Results

  // ---------------------------------------------------------------------------
  // the code under test

  /** An instance of a class under test, by its state. */
  datatype Instance = Instance(state: Value)

  /** What a call leaves behind: the value returned and the arguments as the
      call left them (a call may mutate its list arguments). */
  datatype Outcome = Outcome(value: Value, argsAfter: seq<Value>)

  /** What a runner is handed: the function or the class under test. */
  datatype Subject = FunctionSubject(f: PyFunction) | ClassSubject(c: PyClass)

  /** A settings module's `RUNNER(target, args)`. */
  type Runner = (Subject, seq<Value>) -> Result<Outcome>

  /** The behaviour of the solution module: `f(*args)`, `cls(*args)`,
      `obj.method(*args)` (which may change the instance), `main()` run on the
      text of standard input (giving what it wrote to standard output), and
      the time one call takes. */
  datatype Code = Code(
    call: (PyFunction, seq<Value>) -> Result<Outcome>,
    construct: (PyClass, seq<Value>) -> Result<Instance>,
    invoke: (Instance, PyFunction, seq<Value>) -> Result<(Instance, Outcome)>,
    main: (PyFunction, string) -> Result<string>,
    elapsed: real)

  function Min(a: int, b: int): int {
    if a <= b then a else b
  }

  /** `getattr(obj, name)` for a method of class `c`: its function, defined
      in the class or inherited; a data attribute of that name raises
      `TypeError` once it is called or its signature is read; no attribute
      raises `AttributeError`. */
  function AttrFunction(c: PyClass, name: string): (r: Result<PyFunction>)
    ensures r.Ok? <==> MethodNamed(c.AlongMro(), name).Some?
    ensures r.Ok? ==> r.value.name == name && FunctionAttr(r.value) in c.attrs + c.inherited
    ensures MethodNamed(c.attrs, name).Some? ==> r == Ok(MethodNamed(c.attrs, name).value)
    ensures MethodNamed(c.attrs, name).None? && MethodNamed(c.inherited, name).Some? ==> r == Ok(MethodNamed(c.inherited, name).value)
    ensures r.Err? ==> r.error == (if DataAttr(name) in c.AlongMro() then TypeError else AttributeError)
  {
    MethodAlongMro(c.attrs, c.inherited, name);
    match MethodNamed(c.AlongMro(), name)
    case Some(f) => Ok(f)
    case None => if DataAttr(name) in c.AlongMro() then Err(TypeError) else Err(AttributeError)
  }

  /** The name `getattr` is given: only a string will do. */
  function AttrName(v: Value): (r: Result<string>)
    ensures r.Ok? <==> v.VStr?
  {
    if v.VStr? then Ok(v.s) else Err(TypeError)
  }

  /** `v[1:]`. */
  function Rest(v: Value): (r: Result<seq<Value>>)
    ensures r.Ok? <==> IsSequence(v)
    ensures r.Ok? ==> |r.value| == if Falsy(v) then 0 else |Positional(v).value| - 1
    ensures r.Ok? ==> forall i :: 0 <= i < |r.value| ==> r.value[i] == Positional(v).value[i + 1]
  {
    var xs :- Positional(v);
    Ok(if xs == [] then [] else xs[1..])
  }

  // ---------------------------------------------------------------------------
  // the tester classes and their registry

  /** The subclasses of `Tester`. */
  datatype TesterKind = FunctionKind | MethodKind | ClassKind | StreamKind

  /** The `NAME` of each tester class. */
  function NameOf(k: TesterKind): string {
    match k
    case FunctionKind => "function"
    case MethodKind => "method"
    case ClassKind => "class"
    case StreamKind => "stream"
  }

  function Names(registry: seq<TesterKind>): (names: seq<string>)
    ensures |names| == |registry| && forall i :: 0 <= i < |registry| ==> names[i] == NameOf(registry[i])
  {
    seq(|registry|, i requires 0 <= i < |registry| => NameOf(registry[i]))
  }

  /** `get_tester_by_name(name)`: the tester class of that `NAME`, the last one
      as the dict built over `Tester.__subclasses__()` keeps it. */
  function TesterNamed(registry: seq<TesterKind>, name: string): (r: Option<TesterKind>)
    ensures r.None? <==> forall i :: 0 <= i < |registry| ==> NameOf(registry[i]) != name
    ensures r.Some? ==> r.value in registry && NameOf(r.value) == name
  {
    var j := LastIndexOf(Names(registry), name);
    if j.Some? then Some(registry[j.value]) else None
  }

  /** Every registered tester is found by its own name, and no name finds
      another tester. */
  lemma {:induction false} TesterNamedFinds(registry: seq<TesterKind>, k: TesterKind)
    requires k in registry
    ensures TesterNamed(registry, NameOf(k)) == Some(k)
  {
    var r := TesterNamed(registry, NameOf(k));
    match r.value
    case FunctionKind =>
    case MethodKind =>
    case ClassKind =>
    case StreamKind =>
  }

  /** The module defines a function `main`. */
  predicate HasMain(m: PyModule) {
    FunctionNamed(FuncsOf(m), Config.MainFunctionName).Some?
  }

  /** The module defines a class `Solution`. */
  predicate HasSolutionClass(m: PyModule) {
    ClassNamed(ClassesOf(m), Config.SolutionClassName).Some?
  }

  /** `FunctionTester.verification_module`: some function, no `main`, no
      `Solution` class. */
  predicate FunctionAccepts(m: PyModule) {
    FuncsOf(m) != [] && !HasMain(m) && !HasSolutionClass(m)
  }

  /** `MethodTester.verification_module`: no `main`, and a `Solution` class
      with some public method. */
  predicate MethodAccepts(m: PyModule) {
    !HasMain(m) && ClassesOf(m) != [] && HasSolutionClass(m)
    && MethodNames(ClassNamed(ClassesOf(m), Config.SolutionClassName).value.attrs) != []
  }

  /** `ClassTester.verification_module`: no `main`, no `Solution` class, and a
      first class with at least two public methods. */
  predicate ClassAccepts(m: PyModule) {
    !HasMain(m) && ClassesOf(m) != [] && !HasSolutionClass(m) && |MethodNames(ClassesOf(m)[0].attrs)| > 1
  }

  /** `StreamTester.verification_module`: a function `main`. */
  predicate StreamAccepts(m: PyModule) {
    FuncsOf(m) != [] && HasMain(m)
  }

  /** `verification_module` of each tester class. */
  predicate Accepts(k: TesterKind, m: PyModule) {
    match k
    case FunctionKind => FunctionAccepts(m)
    case MethodKind => MethodAccepts(m)
    case ClassKind => ClassAccepts(m)
    case StreamKind => StreamAccepts(m)
  }

  /** The first position at or after `i` whose tester accepts the module. */
  function FirstAcceptingFrom(registry: seq<TesterKind>, m: PyModule, i: nat): (j: nat)
    requires i <= |registry|
    ensures i <= j <= |registry|
    ensures forall k :: i <= k < j ==> !Accepts(registry[k], m)
    ensures j < |registry| ==> Accepts(registry[j], m)
    decreases |registry| - i
  {
    if i == |registry| || Accepts(registry[i], m) then i else FirstAcceptingFrom(registry, m, i + 1)
  }

  /** `get_tester_class_by_module(module)`: the first tester class, in the
      order of `Tester.__subclasses__()`, whose `verification_module` accepts
      the module. */
  function TesterFor(registry: seq<TesterKind>, m: PyModule): (r: Option<TesterKind>)
    ensures r.None? <==> forall i :: 0 <= i < |registry| ==> !Accepts(registry[i], m)
    ensures r.Some? ==> r.value in registry && Accepts(r.value, m)
    ensures r.Some? ==> exists i :: 0 <= i < |registry| && registry[i] == r.value
                          && forall j :: 0 <= j < i ==> !Accepts(registry[j], m)
  {
    var j := FirstAcceptingFrom(registry, m, 0);
    if j < |registry| then Some(registry[j]) else None
  }

  /** Two testers accept the same module only when they are the function
      tester and the class tester: `main` decides for the stream tester, and
      the `Solution` class separates the method tester from the other two. */
  lemma {:induction false} AcceptanceOverlap(m: PyModule, a: TesterKind, b: TesterKind)
    requires Accepts(a, m) && Accepts(b, m) && a != b
    ensures (a == FunctionKind && b == ClassKind) || (a == ClassKind && b == FunctionKind)
  {
    match a
    case FunctionKind =>
    case MethodKind =>
    case ClassKind =>
    case StreamKind =>
  }

  /** The order of the registry matters only for a module that both the
      function tester and the class tester accept. */
  lemma {:induction false} RegistryOrder(r1: seq<TesterKind>, r2: seq<TesterKind>, m: PyModule)
    requires forall k :: k in r1 <==> k in r2
    requires !(FunctionAccepts(m) && ClassAccepts(m))
    ensures TesterFor(r1, m) == TesterFor(r2, m)
  {
    var a, b := TesterFor(r1, m), TesterFor(r2, m);
    if a.Some? && b.Some? && a.value != b.value {
      AcceptanceOverlap(m, a.value, b.value);
      assert false;
    }
  }

  /** A module with one function and one class of two public methods, and no
      `main` and no `Solution`, suits both the function tester and the class
      tester, so the registry order picks between them. */
  lemma {:induction false} FunctionAndClassOverlap()
    ensures var f := PyFunction("solve", "sol", [], Empty);
      var c := PyClass("Counter", "sol", [FunctionAttr(PyFunction("add", "sol", [], Empty)),
                                          FunctionAttr(PyFunction("get", "sol", [], Empty))], [], []);
      var m := PyModule("sol", [FunctionVar(f), ClassVar(c)]);
      FunctionAccepts(m) && ClassAccepts(m)
  {
    var f := PyFunction("solve", "sol", [], Empty);
    var add, get := PyFunction("add", "sol", [], Empty), PyFunction("get", "sol", [], Empty);
    var c := PyClass("Counter", "sol", [FunctionAttr(add), FunctionAttr(get)], [], []);
    var m := PyModule("sol", [FunctionVar(f), ClassVar(c)]);
    assert m.vars[1..] == [ClassVar(c)] && m.vars[1..][1..] == [];
    assert FunctionsIn([ClassVar(c)], "sol") == [];
    assert FuncsOf(m) == [f];
    assert ClassesIn([FunctionVar(f), ClassVar(c)], "sol") == ClassesIn([ClassVar(c)], "sol");
    assert ClassesOf(m) == [c];
    assert c.attrs[1..] == [FunctionAttr(get)] && c.attrs[1..][1..] == [];
    assert IsPublic("add") && IsPublic("get");
    assert MethodNames(c.attrs) == ["add", "get"];
  }

  // ---------------------------------------------------------------------------
  // parse_module

  /** What a tester object holds once `parse_module` has built it. */
  datatype Strategy =
    | FunctionTester(func: PyFunction)
    | MethodTester(cls: PyClass, methodName: string)
    | ClassTester(cls: PyClass)
    | StreamTester(main: PyFunction)

  function KindOf(s: Strategy): TesterKind {
    match s
    case FunctionTester(_) => FunctionKind
    case MethodTester(_, _) => MethodKind
    case ClassTester(_) => ClassKind
    case StreamTester(_) => StreamKind
  }

  /** `FunctionTester.parse_module(module, target)`, an empty target standing
      for none: the function named by the target, else the first one. */
  function ResolveFunction(m: PyModule, target: string): (r: Result<Strategy>)
    ensures FuncsOf(m) == [] ==> r == Err(ModuleHasNoFunctions)
    ensures r.Ok? ==> r.value.FunctionTester? && r.value.func in FuncsOf(m)
    ensures FuncsOf(m) != [] && target == [] ==> r == Ok(FunctionTester(FuncsOf(m)[0]))
    ensures FuncsOf(m) != [] && target != [] ==>
      (r.Ok? <==> exists i :: 0 <= i < |FuncsOf(m)| && FuncsOf(m)[i].name == target)
      && (r.Ok? ==> r.value.func.name == target)
      && (r.Err? ==> r.error == ModuleLacksFunction(target))
  {
    var funcs := FuncsOf(m);
    if funcs == [] then Err(ModuleHasNoFunctions)
    else if target != [] then
      match FunctionNamed(funcs, target)
      case None => Err(ModuleLacksFunction(target))
      case Some(f) => Ok(FunctionTester(f))
    else Ok(FunctionTester(funcs[0]))
  }

  /** The rewrite `MethodTester.parse_module` applies to a target without a
      dot: every such target becomes the literal "Solution.target". */
  function QualifiedAsWritten(target: string): string {
    if '.' in target then target else Config.SolutionClassName + ".target"
  }

  /** The rewrite evidently intended: "Solution." before the method name. */
  function QualifiedIntended(target: string): string {
    if '.' in target then target else Config.SolutionClassName + "." + target
  }

  /** `MethodTester.parse_module` without a target: the first public method
      of the `Solution` class. */
  function ResolveDefaultMethod(m: PyModule): (r: Result<Strategy>)
    ensures r.Ok? <==> HasSolutionClass(m) && MethodNames(ClassNamed(ClassesOf(m), Config.SolutionClassName).value.attrs) != []
    ensures r.Ok? ==> (r.value.MethodTester? && r.value.cls.name == Config.SolutionClassName
      && MethodNames(r.value.cls.attrs) != [] && r.value.methodName == MethodNames(r.value.cls.attrs)[0])
  {
    match ClassNamed(ClassesOf(m), Config.SolutionClassName)
    case None => Err(ModuleLacksClass(Config.SolutionClassName))
    case Some(c) =>
      var names := MethodNames(c.attrs);
      if names == [] then Err(NoMatchingMethods) else Ok(MethodTester(c, names[0]))
  }

  /** `MethodTester.parse_module` for a target with a dot: the class before
      the dot, which must have some public method, and the method after it,
      which must be a function of the class. */
  function ResolveQualified(m: PyModule, t: string): (r: Result<Strategy>)
    ensures r.Ok? ==> (r.value.MethodTester? && r.value.cls in ClassesOf(m)
      && MethodNames(r.value.cls.attrs) != [] && MethodNamed(r.value.cls.AlongMro(), r.value.methodName).Some?)
    ensures |Split(t, ".")| > 2 ==> r == Err(NestedClassTarget(t))
    ensures |Split(t, ".")| == 2 && r.Ok? ==> r.value.methodName == Split(t, ".")[1]
  {
    var parts := Split(t, ".");
    if |parts| > 2 then Err(NestedClassTarget(t))
    else
      match ClassNamed(ClassesOf(m), parts[0])
      case None => Err(ModuleLacksClass(Config.SolutionClassName))
      case Some(c) =>
        if MethodNames(c.attrs) == [] then Err(NoMatchingMethods)
        else
          var name := if |parts| == 2 then parts[1] else t;
          if MethodNamed(c.AlongMro(), name).Some? then Ok(MethodTester(c, name)) else Err(TargetMethodNotFound(name))
  }

  /** `MethodTester.parse_module(module, target)` as written. */
  function ResolveMethod(m: PyModule, target: string): (r: Result<Strategy>)
    ensures r.Ok? ==> (r.value.MethodTester? && r.value.cls in ClassesOf(m)
      && MethodNames(r.value.cls.attrs) != [] && MethodNamed(r.value.cls.AlongMro(), r.value.methodName).Some?)
  {
    if target == [] then
      var r := ResolveDefaultMethod(m);
      assert r.Ok? ==> MethodNamed(r.value.cls.AlongMro(), r.value.methodName).Some? by {
        if r.Ok? {
          var names := MethodNames(r.value.cls.attrs);
          assert names[0] in names;
          MethodAlongMro(r.value.cls.attrs, r.value.cls.inherited, r.value.methodName);
        }
      }
      r
    else ResolveQualified(m, QualifiedAsWritten(target))
  }

  /** `MethodTester.parse_module` with the intended rewrite of a bare target. */
  function ResolveMethodIntended(m: PyModule, target: string): (r: Result<Strategy>)
    ensures target == [] ==> r == ResolveMethod(m, target)
    ensures '.' in target ==> r == ResolveMethod(m, target)
  {
    if target == [] then ResolveMethod(m, target) else ResolveQualified(m, QualifiedIntended(target))
  }

  /** `s.split(".")` of a string with no dot in its first part. */
  lemma {:induction false} SplitAtFirstDot(a: string, b: string)
    requires '.' !in a
    ensures Split(a + "." + b, ".") == [a] + Split(b, ".")
  {
    var s := a + "." + b;
    assert OccursAt(s, ".", |a|) by {
      assert s[|a|..|a| + 1] == ".";
    }
    forall j: nat | j < |a|
      ensures !OccursAt(s, ".", j)
    {
      assert s[j..j + 1] == [a[j]] && a[j] in a;
    }
    assert IndexOf(s, ".") == Some(|a|);
    assert s[..|a|] == a;
    assert s[|a| + 1..] == b;
  }

  /** `s.split(".")` of a string with no dot. */
  lemma {:induction false} SplitNoDot(s: string)
    requires '.' !in s
    ensures Split(s, ".") == [s]
  {
    forall j: nat | j + 1 <= |s|
      ensures !OccursAt(s, ".", j)
    {
      assert s[j..j + 1] == [s[j]] && s[j] in s;
    }
  }

  /** As written, a target without a dot always names the method "target" of
      the `Solution` class, whatever the target says. */
  lemma {:induction false} BareTargetAsWritten(m: PyModule, t: string)
    requires t != [] && '.' !in t
    ensures ResolveMethod(m, t) == ResolveMethod(m, Config.SolutionClassName + ".target")
    ensures ResolveMethod(m, t).Ok? ==> ResolveMethod(m, t).value.methodName == "target"
  {
    var q := Config.SolutionClassName + ".target";
    assert q == Config.SolutionClassName + "." + "target";
    assert QualifiedAsWritten(t) == q;
    assert QualifiedAsWritten(q) == q by {
      assert q[8] == '.';
    }
    assert Split(q, ".") == [Config.SolutionClassName, "target"] by {
      SplitAtFirstDot(Config.SolutionClassName, "target");
      SplitNoDot("target");
    }
    assert ResolveMethod(m, t) == ResolveQualified(m, q);
    assert ResolveMethod(m, q) == ResolveQualified(m, q) by {
      assert q != [];
    }
  }

  /** With the intended rewrite, a target without a dot names that method of
      the `Solution` class, and is found exactly when the class has some
      public method and a method of that name. */
  lemma {:induction false} BareTargetIntended(m: PyModule, t: string)
    requires t != [] && '.' !in t
    ensures var r := ResolveMethodIntended(m, t);
      var c := ClassNamed(ClassesOf(m), Config.SolutionClassName);
      (r.Ok? <==> c.Some? && MethodNames(c.value.attrs) != [] && MethodNamed(c.value.AlongMro(), t).Some?)
      && (r.Ok? ==> r.value == MethodTester(c.value, t))
  {
    SplitAtFirstDot(Config.SolutionClassName, t);
    SplitNoDot(t);
    assert QualifiedIntended(t) == Config.SolutionClassName + "." + t;
  }

  /** `ClassTester.parse_module(module, target)`: the class named by the
      target, else the first class. */
  function ResolveClass(m: PyModule, target: string): (r: Result<Strategy>)
    ensures ClassesOf(m) == [] ==> r == Err(ModuleHasNoClasses)
    ensures r.Ok? ==> r.value.ClassTester? && r.value.cls in ClassesOf(m)
    ensures ClassesOf(m) != [] && target == [] ==> r == Ok(ClassTester(ClassesOf(m)[0]))
    ensures ClassesOf(m) != [] && target != [] ==>
      (r.Ok? <==> exists i :: 0 <= i < |ClassesOf(m)| && ClassesOf(m)[i].name == target)
      && (r.Ok? ==> r.value.cls.name == target)
      && (r.Err? ==> r.error == TargetClassNotFound(target))
  {
    var classes := ClassesOf(m);
    if classes == [] then Err(ModuleHasNoClasses)
    else if target != [] then
      match ClassNamed(classes, target)
      case None => Err(TargetClassNotFound(target))
      case Some(c) => Ok(ClassTester(c))
    else Ok(ClassTester(classes[0]))
  }

  /** `StreamTester.parse_module(module, target)`: the function named by the
      target, else `main`. */
  function ResolveStream(m: PyModule, target: string): (r: Result<Strategy>)
    ensures FuncsOf(m) == [] ==> r == Err(ModuleHasNoFunctions)
    ensures var name := if target != [] then target else Config.MainFunctionName;
      FuncsOf(m) != [] ==>
        (r.Ok? <==> exists i :: 0 <= i < |FuncsOf(m)| && FuncsOf(m)[i].name == name)
        && (r.Ok? ==> r.value.StreamTester? && r.value.main in FuncsOf(m) && r.value.main.name == name)
        && (r.Err? ==> r.error == ModuleLacksFunction(name))
  {
    var funcs := FuncsOf(m);
    if funcs == [] then Err(ModuleHasNoFunctions)
    else
      var name := if target != [] then target else Config.MainFunctionName;
      match FunctionNamed(funcs, name)
      case None => Err(ModuleLacksFunction(name))
      case Some(f) => Ok(StreamTester(f))
  }

  /** `tester_class.parse_module(module, target)`. */
  function Resolve(k: TesterKind, m: PyModule, target: string): (r: Result<Strategy>)
    ensures r.Ok? ==> KindOf(r.value) == k
  {
    match k
    case FunctionKind => ResolveFunction(m, target)
    case MethodKind => ResolveMethod(m, target)
    case ClassKind => ResolveClass(m, target)
    case StreamKind => ResolveStream(m, target)
  }

  /** A tester that accepts a module can parse it without a target. */
  lemma {:induction false} AcceptedResolves(k: TesterKind, m: PyModule)
    requires Accepts(k, m)
    ensures Resolve(k, m, []).Ok?
  {
    match k
    case FunctionKind =>
    case MethodKind =>
    case ClassKind =>
    case StreamKind =>
      var f := FunctionNamed(FuncsOf(m), Config.MainFunctionName).value;
      var i :| 0 <= i < |FuncsOf(m)| && FuncsOf(m)[i] == f;
  }

  // ---------------------------------------------------------------------------
  // parse_test_data and split_test_set

  /** `StreamTester.parse_test_data`: each input and output pair as the test
      set `[[input], output or None]`. */
  function StreamSets(pairs: seq<(string, string)>): (sets: seq<seq<Value>>)
    ensures |sets| == |pairs|
    ensures forall i :: 0 <= i < |pairs| ==>
      sets[i] == [VList([VStr(pairs[i].0)]), if pairs[i].1 != [] then VStr(pairs[i].1) else VNull]
  {
    seq(|pairs|, i requires 0 <= i < |pairs| =>
      [VList([VStr(pairs[i].0)]), if pairs[i].1 != [] then VStr(pairs[i].1) else VNull])
  }

  /** `tester_class.parse_test_data(test_data)`. */
  function ParseData(k: TesterKind, text: string, decode: string -> Option<Value>): (r: Result<seq<seq<Value>>>)
    ensures k.StreamKind? ==> r == Ok(StreamSets(ParseAsStream(text)))
    ensures !k.StreamKind? ==> r == ParseAsLines(text, decode)
  {
    if k.StreamKind? then Ok(StreamSets(ParseAsStream(text))) else ParseAsLines(text, decode)
  }

  /** The arguments of a test and its expected value (`None` for none). */
  datatype Case = Case(args: Value, expected: Value)

  /** `split_test_set` of the function and method testers for a target with
      parameters `params`: with N required parameters, N + 1 elements at most;
      the first N converted by `proc_args_by_func`, element N (if any) the
      expected value. */
  function SplitSet(params: seq<Param>, registry: seq<NodeKind>, ts: seq<Value>): (r: Result<Case>)
    ensures |ts| > RequiredCount(params) + 1 ==> r == Err(TooManyArguments)
    ensures |ts| <= RequiredCount(params) + 1 ==>
      (r.Ok? <==> forall i :: 0 <= i < |ts| && i < RequiredCount(params) ==> ProcArg(registry, params[i], ts[i]).Ok?)
    ensures r.Ok? ==>
      var n := RequiredCount(params);
      r.value.expected == (if |ts| > n then ts[n] else VNull)
      && r.value.args.VList? && |r.value.args.items| == Min(n, |ts|)
      && forall i :: 0 <= i < |r.value.args.items| ==> ProcArg(registry, params[i], ts[i]) == Ok(r.value.args.items[i])
  {
    var n := RequiredCount(params);
    if |ts| > n + 1 then Err(TooManyArguments)
    else
      var raw := ts[..Min(n, |ts|)];
      assert forall i :: 0 <= i < |raw| ==> raw[i] == ts[i];
      MarshalArgsOk(registry, params, raw);
      var args :- MarshalArgs(registry, params, raw);
      MarshalArgsValues(registry, params, raw);
      Ok(Case(VList(args), if |ts| > n then ts[n] else VNull))
  }

  /** `ClassTester.split_test_set`: two or three elements, the commands and
      their argument lists as the arguments, the third (if any) expected. */
  function SplitClassSet(ts: seq<Value>): (r: Result<Case>)
    ensures r.Ok? <==> 2 <= |ts| <= 3
    ensures |ts| < 2 ==> r == Err(TooFewElements)
    ensures r.Ok? ==> r.value == Case(VTuple(ts[..2]), if |ts| == 3 then ts[2] else VNull)
  {
    if |ts| < 2 then Err(TooFewElements)
    else if |ts| > 3 then Err(TooManyArguments)
    else
      assert ts[..2] == [ts[0], ts[1]];
      Ok(Case(VTuple([ts[0], ts[1]]), if |ts| >= 3 then ts[2] else VNull))
  }

  /** `StreamTester.split_test_set`: exactly two elements, input and expected
      output; a single element fails on `test_set[1]`. */
  function SplitStreamSet(ts: seq<Value>): (r: Result<Case>)
    ensures r.Ok? <==> |ts| == 2
    ensures |ts| == 1 ==> r == Err(IndexError)
    ensures r.Ok? ==> r.value == Case(ts[0], ts[1])
  {
    if |ts| < 1 then Err(TooFewElements)
    else if |ts| > 2 then Err(TooManyArguments)
    else if |ts| == 1 then Err(IndexError)
    else Ok(Case(ts[0], ts[1]))
  }

  /** `obj.split_test_set(test_set)`. The method tester first builds an
      instance and looks the method up on it. */
  function SplitCase(s: Strategy, code: Code, registry: seq<NodeKind>, ts: seq<Value>): (r: Result<Case>)
  {
    match s
    case FunctionTester(f) => SplitSet(f.params, registry, ts)
    case MethodTester(c, name) =>
      var _ :- code.construct(c, []);
      var f :- AttrFunction(c, name);
      SplitSet(f.params, registry, ts)
    case ClassTester(_) => SplitClassSet(ts)
    case StreamTester(_) => SplitStreamSet(ts)
  }

  // ---------------------------------------------------------------------------
  // validate_args_and_expected

  /** The function tester's check: the arguments form a sequence that binds
      to the function's signature. */
  function CheckCall(params: seq<Param>, args: Value): (r: Result<()>)
    ensures r.Ok? <==> IsSequence(args) && ValidateSignature(params, Positional(args).value).Ok?
    ensures !IsSequence(args) ==> r == Err(ArgsNotSequence)
  {
    if !IsSequence(args) then Err(ArgsNotSequence)
    else ValidateSignature(params, Positional(args).value)
  }

  /** Every element is a string. */
  predicate AllStrings(xs: seq<Value>) {
    forall i :: 0 <= i < |xs| ==> xs[i].VStr?
  }

  /** The loop of `ClassTester.validate_args_and_expected` over
      `zip(commands[1:], args_list[1:])`: each method exists and its
      arguments bind to its signature. */
  function CheckCommands(c: PyClass, names: seq<Value>, lists: seq<Value>): (r: Result<()>)
    decreases |names|
  {
    if names == [] || lists == [] then Ok(())
    else
      var name :- AttrName(names[0]);
      var f :- AttrFunction(c, name);
      var margs :- Iterate(lists[0]);
      var _ :- ValidateSignature(f.params, margs);
      CheckCommands(c, names[1..], lists[1..])
  }

  /** `ClassTester.validate_args_and_expected`: the commands, their argument
      lists and the expected values are sequences of one length (so a missing
      expected value, `None`, is refused), the commands are strings, the
      instance can be built from the first argument list, and every later
      command names a method whose arguments bind. */
  function CheckClassCase(c: PyClass, code: Code, args: Value, expected: Value): (r: Result<()>)
    ensures r.Ok? ==> IsSequence(args) && IsSequence(expected)
    ensures r.Ok? ==> (Subscript(args, 0).Ok? && Subscript(args, 1).Ok?
      && IsSequence(Subscript(args, 0).value) && IsSequence(Subscript(args, 1).value))
    ensures r.Ok? ==> var cs := Positional(Subscript(args, 0).value).value;
      |cs| == |Positional(Subscript(args, 1).value).value| == |Positional(expected).value| && AllStrings(cs)
  {
    if !IsSequence(args) then Err(ArgsNotSequence)
    else
      var commands :- Subscript(args, 0);
      var argsList :- Subscript(args, 1);
      if !(IsSequence(commands) && IsSequence(argsList) && IsSequence(expected)) then Err(ElementsNotLists)
      else
        var cs, ls, es := Positional(commands).value, Positional(argsList).value, Positional(expected).value;
        if !(|cs| == |ls| == |es|) then Err(LengthMismatch)
        else if !AllStrings(cs) then Err(CommandsNotStrings)
        else
          var first :- Subscript(argsList, 0);
          var ctorArgs :- Iterate(first);
          var obj :- code.construct(c, ctorArgs);
          CheckCommands(c, cs[1..], ls[1..])
  }

  /** The class tester refuses a test without expected values. */
  lemma {:induction false} ClassNeedsExpected(c: PyClass, code: Code, args: Value)
    ensures CheckClassCase(c, code, args, VNull).Err?
  {
  }

  /** `StreamTester.validate_args_and_expected`: a sequence of strings, and
      a string or `None` expected. */
  function CheckStreamCase(args: Value, expected: Value): (r: Result<()>)
    ensures r.Ok? <==> IsSequence(args) && AllStrings(Positional(args).value) && (expected.VNull? || expected.VStr?)
  {
    if !IsSequence(args) then Err(ArgsNotSequence)
    else if !AllStrings(Positional(args).value) then Err(ArgsNotStrings)
    else if !expected.VNull? && !expected.VStr? then Err(ExpectedNotString)
    else Ok(())
  }

  /** `obj.validate_args_and_expected(args, expected)`. */
  function CheckCase(s: Strategy, code: Code, args: Value, expected: Value): (r: Result<()>)
  {
    match s
    case FunctionTester(f) => CheckCall(f.params, args)
    case MethodTester(c, name) =>
      if !IsSequence(args) then Err(ArgsNotSequence)
      else
        var _ :- code.construct(c, []);
        var f :- AttrFunction(c, name);
        CheckCall(f.params, args)
    case ClassTester(c) => CheckClassCase(c, code, args, expected)
    case StreamTester(_) => CheckStreamCase(args, expected)
  }

  /** Every test set the stream tester parses from text splits into a list
      holding the input and the output or `None`, and passes validation. */
  lemma {:induction false} StreamSetsPass(main: PyFunction, code: Code, registry: seq<NodeKind>, text: string, i: nat)
    requires i < |ParseAsStream(text)|
    ensures var pair := ParseAsStream(text)[i];
      var r := SplitCase(StreamTester(main), code, registry, StreamSets(ParseAsStream(text))[i]);
      r == Ok(Case(VList([VStr(pair.0)]), if pair.1 != [] then VStr(pair.1) else VNull))
      && CheckCase(StreamTester(main), code, r.value.args, r.value.expected).Ok?
  {
    var pair := ParseAsStream(text)[i];
    StreamSetPasses(main, code, registry, pair.0, pair.1);
  }

  lemma {:induction false} StreamSetPasses(main: PyFunction, code: Code, registry: seq<NodeKind>, input: string, output: string)
    ensures var expected := if output != [] then VStr(output) else VNull;
      var r := SplitCase(StreamTester(main), code, registry, [VList([VStr(input)]), expected]);
      r == Ok(Case(VList([VStr(input)]), expected))
      && CheckCase(StreamTester(main), code, r.value.args, r.value.expected).Ok?
  {
    var expected := if output != [] then VStr(output) else VNull;
    assert AllStrings(Positional(VList([VStr(input)])).value);
  }

  // ---------------------------------------------------------------------------
  // run

  /** `FunctionTester.run`: the function (or the runner) called on a copy of
      the arguments, its result converted by `proc_test_result`. */
  function RunFunction(f: PyFunction, runner: Option<Runner>, code: Code, registry: seq<NodeKind>, args: Value): (r: Result<TestResult>)
    ensures r.Ok? ==> r.value.kind == Classic && Iterate(args).Ok? && r.value.argsBefore == Iterate(args).value
  {
    var xs :- Iterate(args);
    var out :- if runner.Some? then runner.value(FunctionSubject(f), xs) else code.call(f, xs);
    Ok(TestResult(Classic, ProcTestResultAsWritten(registry, f, out.value), code.elapsed, xs, out.argsAfter))
  }

  /** `MethodTester.run`: the method called on a fresh instance (or the runner
      called with the class, after which an instance is still built to find
      the method's return annotation). */
  function RunMethod(c: PyClass, name: string, runner: Option<Runner>, code: Code, registry: seq<NodeKind>, args: Value): (r: Result<TestResult>)
    ensures r.Ok? ==> r.value.kind == Classic && Iterate(args).Ok? && r.value.argsBefore == Iterate(args).value
  {
    var xs :- Iterate(args);
    if runner.Some? then
      var out :- runner.value(ClassSubject(c), xs);
      var _ :- code.construct(c, []);
      var f :- AttrFunction(c, name);
      Ok(TestResult(Classic, ProcTestResultAsWritten(registry, f, out.value), code.elapsed, xs, out.argsAfter))
    else
      var obj :- code.construct(c, []);
      var f :- AttrFunction(c, name);
      var step :- code.invoke(obj, f, xs);
      Ok(TestResult(Classic, ProcTestResultAsWritten(registry, f, step.1.value), code.elapsed, xs, step.1.argsAfter))
  }

  /** What one command leaves: its converted result, and its argument list
      as the call left it. */
  datatype CommandStep = CommandStep(result: Value, listAfter: Value)

  /** A sequence with its items replaced; a string or a dict, whose
      iteration yields immutable values, stays as it is. */
  function WithItems(v: Value, items: seq<Value>): Value {
    match v
    case VList(_) => VList(items)
    case VTuple(_) => VTuple(items)
    case _ => v
  }

  /** A command's argument list once the call has run on `after`, the
      arguments as the call left them. `proc_args_by_func` copies the list
      shallowly: an argument it passes on is the object in the list, so the
      list shows what the call did to it; an argument it replaced with a
      node is another object, and the list keeps its value. */
  function ListAfter(registry: seq<NodeKind>, params: seq<Param>, list: Value, after: seq<Value>): (r: Value)
    ensures !(list.VList? || list.VTuple?) ==> r == list
    ensures list.VList? ==> r.VList?
    ensures list.VTuple? ==> r.VTuple?
    ensures (list.VList? || list.VTuple?) ==> |r.items| == |list.items|
    ensures (list.VList? || list.VTuple?) ==>
              forall i :: 0 <= i < |list.items| && Replaced(registry, params, i) ==> r.items[i] == list.items[i]
    ensures (list.VList? || list.VTuple?) ==>
              forall i :: 0 <= i < |list.items| && i < |after| && !Replaced(registry, params, i) ==> r.items[i] == after[i]
  {
    if list.VList? || list.VTuple? then
      WithItems(list, seq(|list.items|, i requires 0 <= i < |list.items| =>
        if i < |after| && !Replaced(registry, params, i) then after[i] else list.items[i]))
    else list
  }

  /** A call that leaves its arguments as it got them leaves the command's
      argument list as it was. */
  lemma {:induction false} ListAfterUnmutated(registry: seq<NodeKind>, params: seq<Param>, list: Value)
    requires Iterate(list).Ok? && MarshalArgs(registry, params, Iterate(list).value).Ok?
    ensures ListAfter(registry, params, list, MarshalArgs(registry, params, Iterate(list).value).value) == list
  {
    var raw := Iterate(list).value;
    MarshalKeepsOthers(registry, params, raw);
    if list.VList? || list.VTuple? {
      var r := ListAfter(registry, params, list, MarshalArgs(registry, params, raw).value);
      assert r.items == list.items;
    }
  }

  /** One command of `ClassTester.run`: the method looked up on the
      instance, its arguments converted by `proc_args_by_func`, the call,
      its result converted by `proc_test_result`, and its argument list as
      the call left it. */
  function Command(c: PyClass, code: Code, registry: seq<NodeKind>, obj: Instance, name: Value, list: Value): Result<(Instance, CommandStep)>
  {
    var n :- AttrName(name);
    var f :- AttrFunction(c, n);
    var raw :- Iterate(list);
    var margs :- MarshalArgs(registry, f.params, raw);
    var step :- code.invoke(obj, f, margs);
    Ok((step.0, CommandStep(ProcTestResultAsWritten(registry, f, step.1.value), ListAfter(registry, f.params, list, step.1.argsAfter))))
  }

  /** The loop of `ClassTester.run` over `zip(commands[1:], args_list[1:])`:
      one converted result per command, each call seeing the instance the
      previous calls left. */
  function Commands(c: PyClass, code: Code, registry: seq<NodeKind>, obj: Instance, names: seq<Value>, lists: seq<Value>): (r: Result<seq<CommandStep>>)
    ensures r.Ok? ==> |r.value| == Min(|names|, |lists|)
    decreases |names|
  {
    if names == [] || lists == [] then Ok([])
    else
      var step :- Command(c, code, registry, obj, names[0], lists[0]);
      var rest :- Commands(c, code, registry, step.0, names[1..], lists[1..]);
      Ok([step.1] + rest)
  }

  /** One turn of the command loop: command `i` runs on the instance the
      earlier commands left, and its step joins theirs. */
  method AdvanceCommand(c: PyClass, code: Code, registry: seq<NodeKind>, ghost obj0: Instance, obj: Instance,
                        names: seq<Value>, lists: seq<Value>, i: nat, results: seq<CommandStep>)
    returns (r: Result<(Instance, seq<CommandStep>)>)
    requires i < |names| && i < |lists|
    requires Commands(c, code, registry, obj0, names, lists) == Prepend(results, Commands(c, code, registry, obj, names[i..], lists[i..]))
    ensures r.Err? ==> Commands(c, code, registry, obj0, names, lists) == Err(r.error)
    ensures r.Ok? ==>
      Commands(c, code, registry, obj0, names, lists) == Prepend(r.value.1, Commands(c, code, registry, r.value.0, names[i + 1..], lists[i + 1..]))
  {
    CommandsStep(c, code, registry, obj0, obj, names, lists, i, results);
    var step := RunCommand(c, code, registry, obj, names[i], lists[i]);
    if step.Err? {
      return Err(step.error);
    }
    r := Ok((step.value.0, results + [step.value.1]));
  }

  /** One command of the loop of `ClassTester.run`, each stage returning
      its exception. */
  method RunCommand(c: PyClass, code: Code, registry: seq<NodeKind>, obj: Instance, name: Value, list: Value)
    returns (r: Result<(Instance, CommandStep)>)
    ensures r == Command(c, code, registry, obj, name, list)
  {
    var n := AttrName(name);
    if n.Err? {
      return Err(n.error);
    }
    var f := AttrFunction(c, n.value);
    if f.Err? {
      return Err(f.error);
    }
    var raw := Iterate(list);
    if raw.Err? {
      return Err(raw.error);
    }
    var margs := ProcArgs(registry, f.value.params, raw.value);
    if margs.Err? {
      return Err(margs.error);
    }
    var step := code.invoke(obj, f.value, margs.value);
    if step.Err? {
      return Err(step.error);
    }
    r := Ok((step.value.0, CommandStep(ProcTestResultAsWritten(registry, f.value, step.value.1.value),
                                       ListAfter(registry, f.value.params, list, step.value.1.argsAfter))));
  }

  /** One turn of the command loop: an exception ends the loop with it;
      otherwise its result joins those before it. */
  lemma {:induction false} CommandsStep(c: PyClass, code: Code, registry: seq<NodeKind>, obj0: Instance, obj: Instance,
                                        names: seq<Value>, lists: seq<Value>, i: nat, results: seq<CommandStep>)
    requires i < |names| && i < |lists|
    requires Commands(c, code, registry, obj0, names, lists) == Prepend(results, Commands(c, code, registry, obj, names[i..], lists[i..]))
    ensures var step := Command(c, code, registry, obj, names[i], lists[i]);
      && (step.Err? ==> Commands(c, code, registry, obj0, names, lists) == Err(step.error))
      && (step.Ok? ==>
            Commands(c, code, registry, obj0, names, lists) ==
            Prepend(results + [step.value.1], Commands(c, code, registry, step.value.0, names[i + 1..], lists[i + 1..])))
  {
    CommandsUnfold(c, code, registry, obj, names[i..], lists[i..]);
    assert names[i..][0] == names[i] && lists[i..][0] == lists[i];
    assert names[i..][1..] == names[i + 1..] && lists[i..][1..] == lists[i + 1..];
    var step := Command(c, code, registry, obj, names[i], lists[i]);
    if step.Ok? {
      PrependSnoc(results, step.value.1, Commands(c, code, registry, step.value.0, names[i + 1..], lists[i + 1..]));
    }
  }

  function StepResults(steps: seq<CommandStep>): (rs: seq<Value>)
    ensures |rs| == |steps| && forall i :: 0 <= i < |steps| ==> rs[i] == steps[i].result
  {
    seq(|steps|, i requires 0 <= i < |steps| => steps[i].result)
  }

  function StepLists(steps: seq<CommandStep>): (ls: seq<Value>)
    ensures |ls| == |steps| && forall i :: 0 <= i < |steps| ==> ls[i] == steps[i].listAfter
  {
    seq(|steps|, i requires 0 <= i < |steps| => steps[i].listAfter)
  }

  /** `args_after` once the commands have run: the deep copy of the test's
      arguments, in which argument list `i + 1` is the one command `i` ran on,
      as the call left it. The commands and the constructor's list stay as
      they were. */
  function ArgsAfter(xs: seq<Value>, steps: seq<CommandStep>): (r: seq<Value>)
    requires |xs| >= 2
    ensures |r| == |xs| && forall i :: 0 <= i < |xs| && i != 1 ==> r[i] == xs[i]
  {
    var ls := xs[1];
    if (ls.VList? || ls.VTuple?) && |steps| < |ls.items| then
      xs[1 := WithItems(ls, [ls.items[0]] + StepLists(steps) + ls.items[1 + |steps|..])]
    else xs
  }

  /** `ClassTester.run`: the instance built from the first argument list,
      then the commands run in order; the results list starts with `None`
      for the constructor, and `args_after` shows the argument lists as the
      calls left them. A runner is handed the class and the arguments and
      its value is taken as is. */
  function RunClass(c: PyClass, runner: Option<Runner>, code: Code, registry: seq<NodeKind>, args: Value): (r: Result<TestResult>)
    ensures r.Ok? ==> r.value.kind == Classic && Iterate(args).Ok? && r.value.argsBefore == Iterate(args).value
    ensures r.Ok? && runner.None? ==> r.value.value.VList? && r.value.value.items != [] && r.value.value.items[0] == VNull
    ensures r.Ok? && runner.None? ==> |r.value.argsAfter| == |r.value.argsBefore|
    ensures r.Ok? && runner.None? ==>
              forall i :: 0 <= i < |r.value.argsBefore| && i != 1 ==> r.value.argsAfter[i] == r.value.argsBefore[i]
  {
    var commands :- Subscript(args, 0);
    var xs := Iterate(args).value;
    var argsList :- Subscript(args, 1);
    if runner.Some? then
      var out :- runner.value(ClassSubject(c), xs);
      Ok(TestResult(Classic, out.value, code.elapsed, xs, out.argsAfter))
    else
      var first :- Subscript(argsList, 0);
      var ctorArgs :- Iterate(first);
      var obj :- code.construct(c, ctorArgs);
      var names :- Rest(commands);
      var lists := Rest(argsList).value;
      var steps :- Commands(c, code, registry, obj, names, lists);
      Ok(TestResult(Classic, VList([VNull] + StepResults(steps)), code.elapsed, xs, ArgsAfter(xs, steps)))
  }

  /** After validation, the class tester's results line up with the
      commands: one entry per command, `None` for the constructor first. */
  lemma {:induction false} ClassResultsAlign(c: PyClass, code: Code, registry: seq<NodeKind>, args: Value, expected: Value)
    requires CheckClassCase(c, code, args, expected).Ok?
    requires RunClass(c, None, code, registry, args).Ok?
    ensures var v := RunClass(c, None, code, registry, args).value.value;
      v.VList? && v.items[0] == VNull
      && |v.items| == |Positional(Subscript(args, 0).value).value| == |Positional(expected).value|
  {
    var commands, argsList := Subscript(args, 0).value, Subscript(args, 1).value;
    var cs, ls := Positional(commands).value, Positional(argsList).value;
    assert cs != [] by {
      assert Subscript(argsList, 0).Ok?;
    }
    var names, lists := Rest(commands).value, Rest(argsList).value;
    assert |names| == |lists| == |cs| - 1;
  }

  /** The code under test changes none of the arguments its methods get. */
  ghost predicate LeavesArguments(code: Code) {
    forall obj, f, a :: code.invoke(obj, f, a).Ok? ==> code.invoke(obj, f, a).value.1.argsAfter == a
  }

  /** Methods that leave their arguments alone leave every command's
      argument list as it was. */
  lemma {:induction false} CommandsKeepLists(c: PyClass, code: Code, registry: seq<NodeKind>, obj: Instance, names: seq<Value>, lists: seq<Value>)
    requires LeavesArguments(code)
    requires Commands(c, code, registry, obj, names, lists).Ok?
    ensures var steps := Commands(c, code, registry, obj, names, lists).value;
      forall i :: 0 <= i < |steps| ==> steps[i].listAfter == lists[i]
    decreases |names|
  {
    if names != [] && lists != [] {
      var step := Command(c, code, registry, obj, names[0], lists[0]).value;
      var n := AttrName(names[0]).value;
      var f := AttrFunction(c, n).value;
      var raw := Iterate(lists[0]).value;
      ListAfterUnmutated(registry, f.params, lists[0]);
      assert step.1.listAfter == lists[0];
      CommandsKeepLists(c, code, registry, step.0, names[1..], lists[1..]);
    }
  }

  /** When the code under test changes none of its arguments, the class
      tester reports the arguments after the run as they were before it. */
  lemma {:induction false} RunClassUnmutated(c: PyClass, code: Code, registry: seq<NodeKind>, args: Value)
    requires LeavesArguments(code)
    requires RunClass(c, None, code, registry, args).Ok?
    ensures RunClass(c, None, code, registry, args).value.argsAfter == RunClass(c, None, code, registry, args).value.argsBefore
  {
    var commands := Subscript(args, 0).value;
    var xs := Iterate(args).value;
    var argsList := Subscript(args, 1).value;
    var first := Subscript(argsList, 0).value;
    var obj := code.construct(c, Iterate(first).value).value;
    var names := Rest(commands).value;
    var lists := Rest(argsList).value;
    var steps := Commands(c, code, registry, obj, names, lists).value;
    CommandsKeepLists(c, code, registry, obj, names, lists);
    assert xs[1] == argsList;
    ArgsAfterUnchanged(xs, steps);
  }

  /** Commands that left their argument lists as they were leave `args_after`
      equal to the arguments. */
  lemma {:induction false} ArgsAfterUnchanged(xs: seq<Value>, steps: seq<CommandStep>)
    requires |xs| >= 2 && Rest(xs[1]).Ok? && |steps| <= |Rest(xs[1]).value|
    requires forall i :: 0 <= i < |steps| ==> steps[i].listAfter == Rest(xs[1]).value[i]
    ensures ArgsAfter(xs, steps) == xs
  {
    var ls := xs[1];
    if (ls.VList? || ls.VTuple?) && |steps| < |ls.items| {
      assert [ls.items[0]] + StepLists(steps) + ls.items[1 + |steps|..] == ls.items;
    }
  }

  /** `StreamTester.run` without a runner: `main` run with standard input
      holding the stripped first argument; the result is what it wrote. */
  function RunMainSpec(main: PyFunction, code: Code, args: Value): (r: Result<TestResult>)
    ensures r.Ok? ==> r.value.kind == Stream && r.value.value.VStr? && r.value.argsAfter == r.value.argsBefore
  {
    var input :- Subscript(args, 0);
    var xs := Iterate(args).value;
    if !input.VStr? then Err(AttributeError)
    else
      var out :- code.main(main, Strip(input.s));
      Ok(TestResult(Stream, VStr(out), code.elapsed, xs, xs))
  }

  /** `StreamTester.run`: a runner is handed `main` and a copy of the
      arguments; otherwise `main` runs on redirected streams. */
  function RunStream(main: PyFunction, runner: Option<Runner>, code: Code, args: Value): (r: Result<TestResult>)
    ensures r.Ok? ==> r.value.kind == Stream
  {
    if runner.Some? then
      var xs :- Iterate(args);
      var out :- runner.value(FunctionSubject(main), xs);
      Ok(TestResult(Stream, out.value, code.elapsed, xs, out.argsAfter))
    else RunMainSpec(main, code, args)
  }

  /** `obj.run(args)`. */
  function RunSpec(s: Strategy, runner: Option<Runner>, code: Code, registry: seq<NodeKind>, args: Value): (r: Result<TestResult>)
    ensures r.Ok? ==> (r.value.kind == Stream <==> s.StreamTester?)
  {
    match s
    case FunctionTester(f) => RunFunction(f, runner, code, registry, args)
    case MethodTester(c, name) => RunMethod(c, name, runner, code, registry, args)
    case ClassTester(c) => RunClass(c, runner, code, registry, args)
    case StreamTester(main) => RunStream(main, runner, code, args)
  }

  /** A stream test that passed validation and ran without a runner is
      judged without raising: its output and its expected value are both
      strings, or nothing is expected. */
  lemma {:induction false} StreamVerdictDecided(main: PyFunction, code: Code, args: Value, expected: Value)
    requires CheckStreamCase(args, expected).Ok?
    requires RunMainSpec(main, code, args).Ok?
    ensures DefaultJudge(RunMainSpec(main, code, args).value, expected).Ok?
  {
  }

  // ---------------------------------------------------------------------------
  // the tester objects

  /** `sys.stdin` or `sys.stdout`: the process's own stream, or a string
      buffer and the text it holds. */
  datatype Stream = ProcessStream | Buffer(text: string)

  /** The interpreter's standard streams, which the stream tester redirects. */
  class Console {
    var stdin: Stream
    var stdout: Stream

    constructor ()
      ensures stdin == ProcessStream && stdout == ProcessStream
    {
      stdin := ProcessStream;
      stdout := ProcessStream;
    }

    /** `StreamTester.run` without a runner: the input and output swapped for
        buffers around the call to `main`, and both put back to the process's
        streams in the `finally` clause, however the call ends. */
    method RunMain(main: PyFunction, code: Code, args: Value) returns (r: Result<TestResult>)
      modifies this
      ensures r == RunMainSpec(main, code, args)
      ensures stdin == ProcessStream && stdout == ProcessStream
    {
      var first := Subscript(args, 0);
      if first.Ok? && first.value.VStr? {
        var xs := Iterate(args).value;
        var input := Strip(first.value.s);
        stdin := Buffer(input);
        stdout := Buffer([]);
        var out := code.main(main, input);
        if out.Ok? {
          stdout := Buffer(out.value);
          r := Ok(TestResult(Stream, VStr(stdout.text), code.elapsed, xs, xs));
        } else {
          r := Err(out.error);
        }
      } else {
        r := if first.Err? then Err(first.error) else Err(AttributeError);
      }
      stdin := ProcessStream;
      stdout := ProcessStream;
    }
  }

  /** A tester object: what `parse_module` resolved, and the runner that
      `testing_module` sets on it. */
  class Tester {
    const strategy: Strategy
    var runner: Option<Runner>

    /** The object `parse_module` returns, before any runner is set. */
    constructor (strategy: Strategy)
      ensures this.strategy == strategy && runner.None?
    {
      this.strategy := strategy;
      runner := None;
    }

    /** The command loop of `ClassTester.run` without a runner: the instance
        changes from call to call, and each converted result is appended. */
    method RunCommands(c: PyClass, code: Code, registry: seq<NodeKind>, obj0: Instance, names: seq<Value>, lists: seq<Value>)
      returns (r: Result<seq<CommandStep>>)
      ensures r == Commands(c, code, registry, obj0, names, lists)
    {
      var results: seq<CommandStep> := [];
      var obj := obj0;
      var i := 0;
      assert names[0..] == names && lists[0..] == lists;
      PrependEmpty(Commands(c, code, registry, obj0, names, lists));
      while i < |names| && i < |lists|
        invariant 0 <= i <= |names| && i <= |lists|
        invariant Commands(c, code, registry, obj0, names, lists) == Prepend(results, Commands(c, code, registry, obj, names[i..], lists[i..]))
      {
        var next := AdvanceCommand(c, code, registry, obj0, obj, names, lists, i, results);
        if next.Err? {
          return Err(next.error);
        }
        obj, results := next.value.0, next.value.1;
        i := i + 1;
      }
      CommandsDone(c, code, registry, obj, names, lists, i, results);
      return Ok(results);
    }

    /** `obj.run(args)`. */
    method Run(console: Console, code: Code, registry: seq<NodeKind>, args: Value) returns (r: Result<TestResult>)
      modifies console
      ensures r == RunSpec(strategy, runner, code, registry, args)
      ensures strategy.StreamTester? && runner.None? ==> console.stdin == ProcessStream && console.stdout == ProcessStream
      ensures !(strategy.StreamTester? && runner.None?) ==> unchanged(console)
    {
      match strategy
      case FunctionTester(f) =>
        r := RunFunction(f, runner, code, registry, args);
      case MethodTester(c, name) =>
        r := RunMethod(c, name, runner, code, registry, args);
      case ClassTester(c) =>
        if runner.Some? {
          r := RunClass(c, runner, code, registry, args);
        } else {
          r := RunClassLoop(c, code, registry, args);
        }
      case StreamTester(main) =>
        if runner.Some? {
          r := RunStream(main, runner, code, args);
        } else {
          r := console.RunMain(main, code, args);
        }
    }

    /** `ClassTester.run` without a runner. */
    method RunClassLoop(c: PyClass, code: Code, registry: seq<NodeKind>, args: Value) returns (r: Result<TestResult>)
      ensures r == RunClass(c, None, code, registry, args)
    {
      var commands := Subscript(args, 0);
      if commands.Err? {
        return Err(commands.error);
      }
      var xs := Iterate(args);
      var argsList := Subscript(args, 1);
      if argsList.Err? {
        return Err(argsList.error);
      }
      var first := Subscript(argsList.value, 0);
      if first.Err? {
        return Err(first.error);
      }
      var ctorArgs := Iterate(first.value);
      if ctorArgs.Err? {
        return Err(ctorArgs.error);
      }
      var obj := code.construct(c, ctorArgs.value);
      if obj.Err? {
        return Err(obj.error);
      }
      var names := Rest(commands.value);
      if names.Err? {
        return Err(names.error);
      }
      var lists := Rest(argsList.value).value;
      var steps := RunCommands(c, code, registry, obj.value, names.value, lists);
      if steps.Err? {
        return Err(steps.error);
      }
      return Ok(TestResult(Classic, VList([VNull] + StepResults(steps.value)), code.elapsed, xs.value, ArgsAfter(xs.value, steps.value)));
    }
  }

  /** The results gathered so far in front of those still to come. */
  function Prepend<T>(done: seq<T>, rest: Result<seq<T>>): Result<seq<T>> {
    if rest.Ok? then Ok(done + rest.value) else rest
  }

  /** One step of the command loop. */
  lemma {:induction false} CommandsUnfold(c: PyClass, code: Code, registry: seq<NodeKind>, obj: Instance, names: seq<Value>, lists: seq<Value>)
    requires names != [] && lists != []
    ensures Commands(c, code, registry, obj, names, lists) ==
      match Command(c, code, registry, obj, names[0], lists[0])
      case Err(e) => Err(e)
      case Ok(step) => Prepend([step.1], Commands(c, code, registry, step.0, names[1..], lists[1..]))
  {
  }

  /** The command loop ends once the commands or the argument lists run out. */
  lemma {:induction false} CommandsDone(c: PyClass, code: Code, registry: seq<NodeKind>, obj: Instance,
                                        names: seq<Value>, lists: seq<Value>, i: nat, results: seq<CommandStep>)
    requires i == |names| || i == |lists|
    requires i <= |names| && i <= |lists|
    ensures Prepend(results, Commands(c, code, registry, obj, names[i..], lists[i..])) == Ok(results)
  {
    assert names[i..] == [] || lists[i..] == [];
    assert results + [] == results;
  }

  lemma {:induction false} PrependEmpty<T>(rest: Result<seq<T>>)
    ensures Prepend([], rest) == rest
  {
    if rest.Ok? {
      assert [] + rest.value == rest.value;
    }
  }

  lemma {:induction false} PrependSnoc<T>(done: seq<T>, v: T, rest: Result<seq<T>>)
    ensures Prepend(done, Prepend([v], rest)) == Prepend(done + [v], rest)
  {
    if rest.Ok? {
      assert done + ([v] + rest.value) == (done + [v]) + rest.value;
    }
  }
}
