/**
 * The introspection helpers of `src/utils/general.py`, over explicit
 * descriptors of modules, classes, functions and parameters in place of
 * Python's `vars`, `inspect.signature` and `isinstance` against annotations,
 * plus the JSON-ish rendering helpers used by the reports.
 */
module General {
  import opened Wrappers
  import opened Values
  import opened PyStr

  // ---------------------------------------------------------------------------
  // descriptors

  /** The classes an annotation can name, as `isinstance` sees them. */
  datatype PyType =
    | IntType                  // `int`, of which `bool` is a subclass
    | BoolType
    | StrType
    | ListType
    | TupleType
    | DictType
    | SequenceType             // `collections.abc.Sequence`
    | NodeType(kind: NodeKind)
    | ObjectType
    | OtherType(name: string)  // a class no harness value belongs to (`float`, a user class, `Any`)

  /** Python's `isinstance(v, t)`. */
  predicate IsInstance(v: Value, t: PyType) {
    match t
    case IntType => v.VInt? || v.VBool?
    case BoolType => v.VBool?
    case StrType => v.VStr?
    case ListType => v.VList?
    case TupleType => v.VTuple?
    case DictType => v.VDict?
    case SequenceType => IsSequence(v)
    case NodeType(k) => v.VNode? && v.kind == k
    case ObjectType => true
    case OtherType(_) => false
  }

  /** A parameter or return annotation as `inspect` reports it, with the text
      `str(annotation)` gives. */
  datatype Annotation =
    | Empty                                // no annotation
    | Forward(text: string)                // written as a string, e.g. 'TreeNode'
    | UnionOf(text: string)                // `Optional[...]` or `Union[...]`
    | Typed(text: string, origin: PyType)  // a class, or a generic alias of its origin class

  /** `str(annotation)`. */
  function AnnotationText(a: Annotation): (r: string)
    ensures a.Empty? ==> r == "<class 'inspect._empty'>"
  {
    if a.Empty? then "<class 'inspect._empty'>" else a.text
  }

  /** The annotation check of `validate_signature`: string and `Union`
      annotations are not checked, any other is checked with `isinstance`
      against its origin class. */
  predicate Admits(a: Annotation, v: Value) {
    a.Typed? ==> IsInstance(v, a.origin)
  }

  /** A positional parameter: its name, its annotation, and its default value
      (`None` here when the default is `Parameter.empty`). */
  datatype Param = Param(name: string, annotation: Annotation, default: Option<Value>)

  /** A function object: its `__name__`, its `__module__`, its parameters
      (without `self` for a method, as the bound method shows them) and its
      return annotation. */
  datatype PyFunction = PyFunction(name: string, definedIn: string, params: seq<Param>, returnAnnotation: Annotation)

  /** A value in a class's `__dict__`: a plain function, or anything else. */
  datatype ClassAttr = FunctionAttr(f: PyFunction) | DataAttr(name: string)

  /** A class: its `__name__`, its `__module__`, its `__dict__` values in
      definition order, the `__dict__` values of the classes after it in its
      `__mro__` (in that order, `object` aside), and the parameters of its
      constructor. */
  datatype PyClass = PyClass(name: string, definedIn: string, attrs: seq<ClassAttr>, inherited: seq<ClassAttr>, init: seq<Param>)
  {
    /** The attributes `getattr` searches, in the order it searches them. */
    function AlongMro(): seq<ClassAttr> {
      attrs + inherited
    }
  }

  /** A value in a module's `vars()`. */
  datatype ModuleVar = FunctionVar(f: PyFunction) | ClassVar(c: PyClass) | OtherVar(name: string)

  /** A module: its `__name__` and its `vars()` values in definition order,
      imported names included. */
  datatype PyModule = PyModule(name: string, vars: seq<ModuleVar>)

  /** Python identifiers are never empty; a public one does not start with "_". */
  predicate IsPublic(name: string) {
    name != [] && name[0] != '_'
  }

  // ---------------------------------------------------------------------------
  // get_funcs_from_module, get_classes_from_module, get_class_method_names

  predicate IsOwnFunction(v: ModuleVar, home: string) {
    v.FunctionVar? && v.f.definedIn == home
  }

  predicate IsOwnClass(v: ModuleVar, home: string) {
    v.ClassVar? && v.c.definedIn == home
  }

  /** The functions among `vs` whose `__module__` is `home`, in order. */
  function FunctionsIn(vs: seq<ModuleVar>, home: string): (fs: seq<PyFunction>)
    ensures |fs| <= |vs|
    ensures forall f :: f in fs <==> FunctionVar(f) in vs && f.definedIn == home
  {
    if vs == [] then []
    else (if IsOwnFunction(vs[0], home) then [vs[0].f] else []) + FunctionsIn(vs[1..], home)
  }

  /** The classes among `vs` whose `__module__` is `home`, in order. */
  function ClassesIn(vs: seq<ModuleVar>, home: string): (cs: seq<PyClass>)
    ensures |cs| <= |vs|
    ensures forall c :: c in cs <==> ClassVar(c) in vs && c.definedIn == home
  {
    if vs == [] then []
    else (if IsOwnClass(vs[0], home) then [vs[0].c] else []) + ClassesIn(vs[1..], home)
  }

  /** `get_funcs_from_module(module)`: the module's own functions, imported ones left out. */
  function FuncsOf(m: PyModule): seq<PyFunction> {
    FunctionsIn(m.vars, m.name)
  }

  /** `get_classes_from_module(module)`: the module's own classes, imported ones left out. */
  function ClassesOf(m: PyModule): seq<PyClass> {
    ClassesIn(m.vars, m.name)
  }

  /** `vs[j]` is the function `f`, and no function of `home` comes before it. */
  predicate FirstFunctionAt(vs: seq<ModuleVar>, home: string, j: int, f: PyFunction) {
    0 <= j < |vs| && vs[j] == FunctionVar(f) && forall i :: 0 <= i < j ==> !IsOwnFunction(vs[i], home)
  }

  /** `vs[j]` is the class `c`, and no class of `home` comes before it. */
  predicate FirstClassAt(vs: seq<ModuleVar>, home: string, j: int, c: PyClass) {
    0 <= j < |vs| && vs[j] == ClassVar(c) && forall i :: 0 <= i < j ==> !IsOwnClass(vs[i], home)
  }

  /** The first of the module's own functions is the first one defined. */
  lemma {:induction false} FirstFunctionIn(vs: seq<ModuleVar>, home: string)
    requires FunctionsIn(vs, home) != []
    ensures exists j :: FirstFunctionAt(vs, home, j, FunctionsIn(vs, home)[0])
    decreases |vs|
  {
    if !IsOwnFunction(vs[0], home) {
      assert FunctionsIn(vs, home) == FunctionsIn(vs[1..], home);
      FirstFunctionIn(vs[1..], home);
      var j :| FirstFunctionAt(vs[1..], home, j, FunctionsIn(vs[1..], home)[0]);
      assert vs[j + 1] == vs[1..][j];
      forall i | 0 <= i < j + 1 ensures !IsOwnFunction(vs[i], home) {
        if i > 0 {
          assert vs[i] == vs[1..][i - 1];
        }
      }
      assert FirstFunctionAt(vs, home, j + 1, FunctionsIn(vs, home)[0]);
    } else {
      assert FirstFunctionAt(vs, home, 0, FunctionsIn(vs, home)[0]);
    }
  }

  /** The first of the module's own classes is the first one defined. */
  lemma {:induction false} FirstClassIn(vs: seq<ModuleVar>, home: string)
    requires ClassesIn(vs, home) != []
    ensures exists j :: FirstClassAt(vs, home, j, ClassesIn(vs, home)[0])
    decreases |vs|
  {
    if !IsOwnClass(vs[0], home) {
      assert ClassesIn(vs, home) == ClassesIn(vs[1..], home);
      FirstClassIn(vs[1..], home);
      var j :| FirstClassAt(vs[1..], home, j, ClassesIn(vs[1..], home)[0]);
      assert vs[j + 1] == vs[1..][j];
      forall i | 0 <= i < j + 1 ensures !IsOwnClass(vs[i], home) {
        if i > 0 {
          assert vs[i] == vs[1..][i - 1];
        }
      }
      assert FirstClassAt(vs, home, j + 1, ClassesIn(vs, home)[0]);
    } else {
      assert FirstClassAt(vs, home, 0, ClassesIn(vs, home)[0]);
    }
  }

  /** The position of the last `name` in `names`: the entry a dict built from
      the sequence by name keeps. */
  function LastIndexOf(names: seq<string>, name: string): (j: Option<nat>)
    ensures j.None? <==> name !in names
    ensures j.Some? ==> j.value < |names| && names[j.value] == name
    ensures j.Some? ==> forall i :: j.value < i < |names| ==> names[i] != name
  {
    if names == [] then None
    else if names[|names| - 1] == name then Some(|names| - 1)
    else
      assert forall i :: 0 <= i < |names| - 1 ==> names[i] == names[..|names| - 1][i];
      LastIndexOf(names[..|names| - 1], name)
  }

  /** The `__name__` of each of `xs`, in order. */
  function Names<T>(xs: seq<T>, nameOf: T -> string): (names: seq<string>)
    ensures |names| == |xs| && forall i :: 0 <= i < |xs| ==> names[i] == nameOf(xs[i])
  {
    seq(|xs|, i requires 0 <= i < |xs| => nameOf(xs[i]))
  }

  /** `{x.__name__: x for x in fs}.get(name)`: the last function of that name. */
  function FunctionNamed(fs: seq<PyFunction>, name: string): (r: Option<PyFunction>)
    ensures r.None? <==> forall i :: 0 <= i < |fs| ==> fs[i].name != name
    ensures r.Some? ==> r.value in fs && r.value.name == name
  {
    var j := LastIndexOf(Names(fs, (f: PyFunction) => f.name), name);
    if j.Some? then Some(fs[j.value]) else None
  }

  /** `{x.__name__: x for x in cs}.get(name)`: the last class of that name. */
  function ClassNamed(cs: seq<PyClass>, name: string): (r: Option<PyClass>)
    ensures r.None? <==> forall i :: 0 <= i < |cs| ==> cs[i].name != name
    ensures r.Some? ==> r.value in cs && r.value.name == name
  {
    var j := LastIndexOf(Names(cs, (c: PyClass) => c.name), name);
    if j.Some? then Some(cs[j.value]) else None
  }

  /** `get_class_method_names(cls)`: the names of the plain functions in the
      class's own `__dict__` that do not start with "_", in order. */
  function MethodNames(attrs: seq<ClassAttr>): (names: seq<string>)
    ensures |names| <= |attrs|
    ensures forall n :: n in names <==>
      exists i :: 0 <= i < |attrs| && attrs[i].FunctionAttr? && attrs[i].f.name == n && IsPublic(n)
  {
    if attrs == [] then []
    else
      var rest := MethodNames(attrs[1..]);
      assert forall i :: 1 <= i < |attrs| ==> attrs[i] == attrs[1..][i - 1];
      if attrs[0].FunctionAttr? && IsPublic(attrs[0].f.name) then [attrs[0].f.name] + rest else rest
  }

  /** `attrs[j]` is a public function named `n`, and no public function
      comes before it. */
  predicate FirstMethodAt(attrs: seq<ClassAttr>, j: int, n: string) {
    && 0 <= j < |attrs| && attrs[j].FunctionAttr? && attrs[j].f.name == n && IsPublic(n)
    && forall i :: 0 <= i < j ==> !(attrs[i].FunctionAttr? && IsPublic(attrs[i].f.name))
  }

  /** The first listed method name is that of the first public function in
      the class's `__dict__`, which keeps definition order. */
  lemma {:induction false} FirstMethodIn(attrs: seq<ClassAttr>)
    requires MethodNames(attrs) != []
    ensures exists j :: FirstMethodAt(attrs, j, MethodNames(attrs)[0])
    decreases |attrs|
  {
    if !(attrs[0].FunctionAttr? && IsPublic(attrs[0].f.name)) {
      assert MethodNames(attrs) == MethodNames(attrs[1..]);
      FirstMethodIn(attrs[1..]);
      var j :| FirstMethodAt(attrs[1..], j, MethodNames(attrs[1..])[0]);
      assert attrs[j + 1] == attrs[1..][j];
      forall i | 0 <= i < j + 1 ensures !(attrs[i].FunctionAttr? && IsPublic(attrs[i].f.name)) {
        if i > 0 {
          assert attrs[i] == attrs[1..][i - 1];
        }
      }
      assert FirstMethodAt(attrs, j + 1, MethodNames(attrs)[0]);
    } else {
      assert FirstMethodAt(attrs, 0, MethodNames(attrs)[0]);
    }
  }

  /** `getattr(cls, name)` for a method, over the attributes of a class in
      the order `getattr` searches them (`PyClass.AlongMro`): the first
      function of that name. */
  function MethodNamed(attrs: seq<ClassAttr>, name: string): (r: Option<PyFunction>)
    ensures r.Some? ==> FunctionAttr(r.value) in attrs && r.value.name == name
    ensures r.None? <==> forall i :: 0 <= i < |attrs| ==> !(attrs[i].FunctionAttr? && attrs[i].f.name == name)
  {
    if attrs == [] then None
    else if attrs[0].FunctionAttr? && attrs[0].f.name == name then Some(attrs[0].f)
    else
      assert forall i :: 1 <= i < |attrs| ==> attrs[i] == attrs[1..][i - 1];
      MethodNamed(attrs[1..], name)
  }

  /** A method in the class's own `__dict__` is found there, whatever it
      inherits; one that is not is looked up in what it inherits. */
  lemma {:induction false} MethodAlongMro(own: seq<ClassAttr>, inherited: seq<ClassAttr>, name: string)
    ensures MethodNamed(own, name).Some? ==> MethodNamed(own + inherited, name) == MethodNamed(own, name)
    ensures MethodNamed(own, name).None? ==> MethodNamed(own + inherited, name) == MethodNamed(inherited, name)
    decreases |own|
  {
    if own != [] {
      assert (own + inherited)[1..] == own[1..] + inherited;
      MethodAlongMro(own[1..], inherited, name);
    } else {
      assert own + inherited == inherited;
    }
  }

  // ---------------------------------------------------------------------------
  // get_count_required_params, validate_signature

  /** `get_count_required_params(func)`: how many parameters have no default. */
  function RequiredCount(ps: seq<Param>): (n: nat)
    ensures n <= |ps|
    ensures n == |ps| <==> forall i :: 0 <= i < |ps| ==> ps[i].default.None?
    ensures n == 0 <==> forall i :: 0 <= i < |ps| ==> ps[i].default.Some?
  {
    if ps == [] then 0
    else
      assert forall i :: 1 <= i < |ps| ==> ps[i] == ps[1..][i - 1];
      (if ps[0].default.Some? then 0 else 1) + RequiredCount(ps[1..])
  }

  /** Python's grammar puts every positional parameter with a default after
      those without one. */
  predicate DefaultsTrail(ps: seq<Param>) {
    forall i, j :: 0 <= i < j < |ps| && ps[i].default.Some? ==> ps[j].default.Some?
  }

  /** `signature.bind(*args)` succeeds with `n` positional arguments: no more
      than there are parameters, and every parameter left over has a default. */
  predicate Binds(ps: seq<Param>, n: nat) {
    n <= |ps| && forall i :: n <= i < |ps| ==> ps[i].default.Some?
  }

  /** With defaults trailing, `n` arguments bind exactly when `n` lies between
      the required count and the parameter count. */
  lemma {:induction false} BindsRange(ps: seq<Param>, n: nat)
    requires DefaultsTrail(ps)
    ensures Binds(ps, n) <==> RequiredCount(ps) <= n <= |ps|
    decreases |ps|
  {
    if ps != [] {
      var tail := ps[1..];
      assert forall i :: 1 <= i < |ps| ==> ps[i] == tail[i - 1];
      if ps[0].default.Some? {
        assert RequiredCount(ps) == 0;
      } else if n == 0 {
        assert !Binds(ps, n);
      } else {
        BindsRange(tail, n - 1);
        assert Binds(ps, n) <==> Binds(tail, n - 1);
      }
    }
  }

  /** The per-argument check of `validate_signature` over the bound arguments. */
  function CheckBound(ps: seq<Param>, args: seq<Value>): (r: Result<()>)
    requires |args| <= |ps|
    ensures r.Ok? <==> forall i :: 0 <= i < |args| ==> Admits(ps[i].annotation, args[i])
    ensures r.Err? ==> r.error == TypeError
  {
    if args == [] then Ok(())
    else if !Admits(ps[0].annotation, args[0]) then Err(TypeError)
    else
      var r := CheckBound(ps[1..], args[1..]);
      assert forall i :: 1 <= i < |args| ==> ps[i] == ps[1..][i - 1] && args[i] == args[1..][i - 1];
      r
  }

  /** `validate_signature(func, *args)`: the arguments bind and each bound one
      satisfies its parameter's annotation, else `TypeError`. */
  function ValidateSignature(ps: seq<Param>, args: seq<Value>): (r: Result<()>)
    ensures r.Ok? <==> Binds(ps, |args|) && forall i :: 0 <= i < |args| ==> Admits(ps[i].annotation, args[i])
    ensures r.Err? ==> r.error == TypeError
  {
    if !Binds(ps, |args|) then Err(TypeError) else CheckBound(ps, args)
  }

  // ---------------------------------------------------------------------------
  // to_json_string, string_to_json, args_to_string

  /** `to_json_string(value)`: a string in double quotes, anything else as `str` prints it. */
  function ToJsonString(v: Value): (r: string)
    ensures r != []
    ensures v.VStr? ==> |r| == |v.s| + 2 && r[1..|r| - 1] == v.s && r[0] == r[|r| - 1] == '"'
  {
    if v.VStr? then "\"" + v.s + "\"" else Str(v)
  }

  /** The replacements of `string_to_json`, in the order it applies them. */
  const JsonReplacements: seq<(string, string)> :=
    [("'", "\""), ("None", "null"), ("True", "true"), ("False", "false")]

  /** Each replacement applied in turn to the whole text. */
  function ReplaceEach(s: string, pairs: seq<(string, string)>): string
    requires forall i :: 0 <= i < |pairs| ==> |pairs[i].0| > 0
    decreases |pairs|
  {
    if pairs == [] then s else ReplaceEach(Replace(s, pairs[0].0, pairs[0].1), pairs[1..])
  }

  /** The text `string_to_json(s)` returns. */
  function JsonText(s: string): string {
    ReplaceEach(s, JsonReplacements)
  }

  /** `string_to_json(s)`: the replacement loop. */
  method StringToJson(s: string) returns (r: string)
    ensures r == JsonText(s)
  {
    r := s;
    for i := 0 to |JsonReplacements|
      invariant ReplaceEach(r, JsonReplacements[i..]) == JsonText(s)
    {
      assert JsonReplacements[i..][1..] == JsonReplacements[i + 1..];
      r := Replace(r, JsonReplacements[i].0, JsonReplacements[i].1);
    }
  }

  /** No single quote survives `string_to_json`. */
  lemma {:induction false} JsonTextHasNoSingleQuote(s: string)
    ensures '\'' !in JsonText(s)
  {
    var s1 := Replace(s, "'", "\"");
    ReplaceRemovesChar(s, '\'', "\"");
    var s2 := Replace(s1, "None", "null");
    ReplaceKeepsAbsent(s1, "None", "null", '\'');
    var s3 := Replace(s2, "True", "true");
    ReplaceKeepsAbsent(s2, "True", "true", '\'');
    ReplaceKeepsAbsent(s3, "False", "false", '\'');
    assert JsonText(s) == Replace(s3, "False", "false");
  }

  /** Replacements whose patterns start with characters the text lacks leave it unchanged. */
  lemma {:induction false} ReplaceEachKeeps(s: string, pairs: seq<(string, string)>)
    requires forall i :: 0 <= i < |pairs| ==> |pairs[i].0| > 0 && pairs[i].0[0] !in s
    ensures ReplaceEach(s, pairs) == s
    decreases |pairs|
  {
    if pairs != [] {
      AbsentByFirstChar(s, pairs[0].0);
      ReplaceAbsent(s, pairs[0].0, pairs[0].1);
      ReplaceEachKeeps(s, pairs[1..]);
    }
  }

  /** Text holding none of `'`, `N`, `T` and `F` passes `string_to_json` unchanged. */
  lemma {:induction false} JsonTextKeeps(s: string)
    requires '\'' !in s && 'N' !in s && 'T' !in s && 'F' !in s
    ensures JsonText(s) == s
  {
    ReplaceEachKeeps(s, JsonReplacements);
  }

  /** A replacement whose pattern is the whole text gives the replacement text. */
  lemma {:induction false} ReplaceWhole(s: string, repl: string)
    requires |s| > 0
    ensures Replace(s, s, repl) == repl
  {
    assert s[..|s|] == s;
    assert Replace(s[|s|..], s, repl) == s[|s|..];
  }

  /** `None` renders as the JSON literal `null`. */
  lemma {:induction false} JsonNull()
    ensures JsonText(ToJsonString(VNull)) == "null"
  {
    var jr := JsonReplacements;
    assert ToJsonString(VNull) == "None";
    AbsentByFirstChar("None", "'");
    ReplaceAbsent("None", "'", "\"");
    assert ReplaceEach("None", jr) == ReplaceEach("None", jr[1..]);
    ReplaceWhole("None", "null");
    assert ReplaceEach("None", jr[1..]) == ReplaceEach("null", jr[2..]);
    ReplaceEachKeeps("null", jr[2..]);
  }

  /** An integer renders as its decimal digits. */
  lemma {:induction false} JsonInt(i: int)
    ensures JsonText(ToJsonString(VInt(i))) == IntToString(i)
  {
    IntToStringChars(i);
    JsonTextKeeps(IntToString(i));
  }

  /** A string free of the characters the replacements look for renders as
      itself in double quotes. */
  lemma {:induction false} JsonStr(s: string)
    requires '\'' !in s && 'N' !in s && 'T' !in s && 'F' !in s
    ensures JsonText(ToJsonString(VStr(s))) == "\"" + s + "\""
  {
    JsonTextKeeps("\"" + s + "\"");
  }

  /** A decimal rendering holds only digits and a minus sign. */
  lemma {:induction false} IntToStringChars(i: int)
    ensures forall c :: c in IntToString(i) ==> c == '-' || IsAsciiDigit(c)
  {
    var d := NatToString(if i < 0 then -i else i);
    assert forall c :: c in d ==> IsAsciiDigit(c);
  }

  /** `args_to_string(*args, **kwargs)`: the renderings of the positional
      arguments, then `name=value` for the keyword ones, joined with ", ". */
  function ArgsToString(args: seq<Value>, kwargs: seq<(string, Value)>): (r: string)
    ensures r == [] <==> args == [] && kwargs == []
  {
    Join(", ", ArgParts(args) + KwargParts(kwargs))
  }

  /** The `name=value` renderings of the keyword arguments. */
  function KwargParts(kwargs: seq<(string, Value)>): (parts: seq<string>)
    ensures |parts| == |kwargs|
    ensures forall i :: 0 <= i < |kwargs| ==> parts[i] == kwargs[i].0 + "=" + ToJsonString(kwargs[i].1)
  {
    seq(|kwargs|, i requires 0 <= i < |kwargs| => kwargs[i].0 + "=" + ToJsonString(kwargs[i].1))
  }

  /** The renderings of the positional arguments. */
  function ArgParts(args: seq<Value>): (parts: seq<string>)
    ensures |parts| == |args| && forall i :: 0 <= i < |args| ==> parts[i] == ToJsonString(args[i])
  {
    seq(|args|, i requires 0 <= i < |args| => ToJsonString(args[i]))
  }

  /** One more positional argument adds ", " and its rendering. */
  lemma {:induction false} ArgsToStringSnoc(args: seq<Value>, v: Value)
    requires args != []
    ensures ArgsToString(args + [v], []) == ArgsToString(args, []) + ", " + ToJsonString(v)
  {
    assert KwargParts([]) == [];
    assert ArgParts(args + [v]) + KwargParts([]) == ArgParts(args) + [ToJsonString(v)];
    assert ArgParts(args) + KwargParts([]) == ArgParts(args);
    JoinAppend(", ", ArgParts(args), [ToJsonString(v)]);
  }
}
