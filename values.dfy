/**
 * The Python values that flow through the harness: JSON literals decoded from
 * the test text, tuples built by the testers, and marshalled node structures.
 *
 * A marshalled node is held by kind and by its `to_list` encoding, because the
 * harness only ever observes a node through `to_list` (equality, printing and
 * result conversion all go through it); the heap classes of the node modules
 * are proved to produce exactly these encodings.
 */
module Values {
  import opened Wrappers
  import opened PyStr

  /** The three node classes, in the order their module registers them. */
  datatype NodeKind = ListNodeKind | BinaryTreeKind | NTreeKind

  datatype Value =
    | VNull
    | VBool(b: bool)
    | VInt(i: int)
    | VStr(s: string)
    | VList(items: seq<Value>)
    | VTuple(items: seq<Value>)
    | VDict(entries: seq<(string, Value)>)
    | VNode(kind: NodeKind, items: seq<Value>)

  /** The exceptions the harness raises or lets through, one per raise site. */
  datatype Error =
    // Python built-in exceptions raised by the harness's own code
    | TypeError
    | KeyError
    | IndexError
    | AttributeError
    | NameError
    | JsonDecodeError
    | ValueError
    // the code under test (solution, runner or validator) raised
    | CodeRaised
    // a legacy `Queue.get()` on an empty queue, which blocks for ever
    | Blocked
    // the harness's `Exception(...)` raise sites
    | ModuleHasNoFunctions
    | ModuleLacksFunction(name: string)
    | ModuleHasNoClasses
    | ModuleLacksClass(name: string)
    | NestedClassTarget(target: string)
    | NoMatchingMethods
    | TargetMethodNotFound(name: string)
    | TargetClassNotFound(name: string)
    | TooManyArguments
    | TooFewElements
    | ArgsNotSequence
    | ElementsNotLists
    | LengthMismatch
    | CommandsNotStrings
    | CommandArgsNotLists
    | ArgsNotStrings
    | ExpectedNotString
    | SignatureMismatch
    | NoSolutions
    | TesterNotString
    | TesterNotFound(msg: string)
    | NoSuitableTester(solution: string)
    | ValidatorNotFunction
    | TargetNotString
    // the legacy harness's `TestDataError(msg)` and `NotImplementedError(msg)`
    | TestDataError(msg: string)
    | NotImplemented(msg: string)

  datatype Result<+T> = Ok(value: T) | Err(error: Error) {
    predicate IsFailure() {
      Err?
    }

    function PropagateFailure<U>(): Result<U>
      requires Err?
    {
      Err(error)
    }

    function Extract(): T
      requires Ok?
    {
      value
    }
  }

  // ---------------------------------------------------------------------------
  // truthiness and the sequence protocol

  /** Python's `not v`. Node objects define no `__bool__` or `__len__`. */
  predicate Falsy(v: Value) {
    match v
    case VNull => true
    case VBool(b) => !b
    case VInt(i) => i == 0
    case VStr(s) => s == []
    case VList(xs) => xs == []
    case VTuple(xs) => xs == []
    case VDict(es) => es == []
    case VNode(_, _) => false
  }

  /** Python's `isinstance(v, collections.abc.Sequence)`. */
  predicate IsSequence(v: Value) {
    v.VList? || v.VTuple? || v.VStr?
  }

  /** The one-character strings of a string, as iterating over it yields them. */
  function Chars(s: string): (r: seq<Value>)
    ensures |r| == |s| && forall i :: 0 <= i < |s| ==> r[i] == VStr([s[i]])
  {
    seq(|s|, i requires 0 <= i < |s| => VStr([s[i]]))
  }

  /** Python's `len(v)`. */
  function Len(v: Value): (r: Result<nat>)
    ensures r.Ok? <==> (IsSequence(v) || v.VDict?)
    ensures r.Ok? ==> (r.value == 0 <==> Falsy(v))
  {
    match v
    case VStr(s) => Ok(|s|)
    case VList(xs) => Ok(|xs|)
    case VTuple(xs) => Ok(|xs|)
    case VDict(es) => Ok(|es|)
    case _ => Err(TypeError)
  }

  /** The elements `v[0], v[1], ...` of a value indexed by position: a list,
      a tuple or a string. A dict (string keys) has no key `0`; anything else is
      not subscriptable. */
  function Positional(v: Value): (r: Result<seq<Value>>)
    ensures r.Ok? <==> IsSequence(v)
    ensures r.Err? ==> r.error == (if v.VDict? then KeyError else TypeError)
    ensures r.Ok? ==> (r.value == [] <==> Falsy(v))
  {
    match v
    case VList(xs) => Ok(xs)
    case VTuple(xs) => Ok(xs)
    case VStr(s) => Ok(Chars(s))
    case VDict(_) => Err(KeyError)
    case _ => Err(TypeError)
  }

  /** The values `for x in v` visits: items, characters, or the keys of a dict. */
  function Iterate(v: Value): (r: Result<seq<Value>>)
    ensures r.Ok? <==> (IsSequence(v) || v.VDict?)
    ensures r.Ok? ==> (r.value == [] <==> Falsy(v))
    ensures IsSequence(v) ==> r == Positional(v)
  {
    match v
    case VDict(es) => Ok(Keys(es))
    case _ => if IsSequence(v) then Positional(v) else Err(TypeError)
  }

  /** The keys of a dict, as strings, in insertion order. */
  function Keys(es: seq<(string, Value)>): (r: seq<Value>)
    ensures |r| == |es| && forall i :: 0 <= i < |es| ==> r[i] == VStr(es[i].0)
  {
    if es == [] then [] else [VStr(es[0].0)] + Keys(es[1..])
  }

  /** Python's `v[i]` for an integer index, negative indices counting from the end. */
  function Subscript(v: Value, i: int): (r: Result<Value>)
    ensures r.Ok? ==> IsSequence(v)
  {
    var xs :- Positional(v);
    if -|xs| <= i < |xs| then Ok(xs[if i < 0 then i + |xs| else i]) else Err(IndexError)
  }

  // ---------------------------------------------------------------------------
  // equality

  /** The numeric value of a bool or an int (`True == 1` in Python). */
  function Num(v: Value): int
    requires v.VBool? || v.VInt?
  {
    if v.VBool? then (if v.b then 1 else 0) else v.i
  }

  /** Python's `a == b`. Lists and tuples compare item by item, dicts as
      key-to-value maps, bools and ints numerically, and two nodes by their
      `to_list` encodings whatever their kinds. */
  function PyEq(a: Value, b: Value): bool
    decreases a
  {
    match a
    case VNull => b.VNull?
    case VBool(_) => (b.VBool? || b.VInt?) && Num(a) == Num(b)
    case VInt(_) => (b.VBool? || b.VInt?) && Num(a) == Num(b)
    case VStr(s) => b.VStr? && b.s == s
    case VList(xs) =>
      b.VList? && |xs| == |b.items| && forall i :: 0 <= i < |xs| ==> PyEq(xs[i], b.items[i])
    case VTuple(xs) =>
      b.VTuple? && |xs| == |b.items| && forall i :: 0 <= i < |xs| ==> PyEq(xs[i], b.items[i])
    case VNode(_, xs) =>
      b.VNode? && |xs| == |b.items| && forall i :: 0 <= i < |xs| ==> PyEq(xs[i], b.items[i])
    case VDict(es) =>
      b.VDict? && |es| == |b.entries|
      && forall i :: 0 <= i < |es| ==>
           var j := KeyIndex(b.entries, es[i].0);
           j.Some? && PyEq(es[i].1, b.entries[j.value].1)
  }

  /** The position of key `k` among the items of a dict. */
  function KeyIndex(es: seq<(string, Value)>, k: string): (j: Option<nat>)
    ensures j.Some? ==> j.value < |es| && es[j.value].0 == k
    ensures j.None? ==> forall i :: 0 <= i < |es| ==> es[i].0 != k
  {
    if es == [] then None
    else if es[|es| - 1].0 == k then Some(|es| - 1)
    else KeyIndex(es[..|es| - 1], k)
  }

  /** A Python dict holds each key once, at every level of nesting. */
  predicate WellFormed(v: Value)
    decreases v
  {
    match v
    case VList(xs) => forall i :: 0 <= i < |xs| ==> WellFormed(xs[i])
    case VTuple(xs) => forall i :: 0 <= i < |xs| ==> WellFormed(xs[i])
    case VNode(_, xs) => forall i :: 0 <= i < |xs| ==> WellFormed(xs[i])
    case VDict(es) =>
      (forall i, j :: 0 <= i < j < |es| ==> es[i].0 != es[j].0)
      && forall i :: 0 <= i < |es| ==> WellFormed(es[i].1)
    case _ => true
  }

  /** Every value equals itself. */
  lemma {:induction false} PyEqReflexive(a: Value)
    requires WellFormed(a)
    ensures PyEq(a, a)
    decreases a
  {
    match a
    case VList(xs) =>
      forall i | 0 <= i < |xs| ensures PyEq(xs[i], xs[i]) { PyEqReflexive(xs[i]); }
    case VTuple(xs) =>
      forall i | 0 <= i < |xs| ensures PyEq(xs[i], xs[i]) { PyEqReflexive(xs[i]); }
    case VNode(_, xs) =>
      forall i | 0 <= i < |xs| ensures PyEq(xs[i], xs[i]) { PyEqReflexive(xs[i]); }
    case VDict(es) =>
      forall i | 0 <= i < |es|
        ensures KeyIndex(es, es[i].0) == Some(i) && PyEq(es[i].1, es[i].1)
      {
        PyEqReflexive(es[i].1);
      }
    case _ =>
  }

  // ---------------------------------------------------------------------------
  // str() and repr()

  /** Python's `repr` of a string: single quotes unless the text holds a single
      quote and no double quote. */
  function QuoteRepr(s: string): (r: string)
    ensures |r| == |s| + 2 && r[1..|r| - 1] == s
    ensures r[0] == r[|r| - 1] && (r[0] == '\'' || r[0] == '"')
  {
    if '\'' in s && '"' !in s then "\"" + s + "\"" else "'" + s + "'"
  }

  /** Python's `repr(v)`; a node prints as its `to_list`. */
  function Repr(v: Value): (r: string)
    ensures r != []
    decreases v, 1
  {
    match v
    case VNull => "None"
    case VBool(b) => if b then "True" else "False"
    case VInt(i) => IntToString(i)
    case VStr(s) => QuoteRepr(s)
    case VList(xs) => "[" + ReprItems(v, xs) + "]"
    case VTuple(xs) => if |xs| == 1 then "(" + Repr(xs[0]) + ",)" else "(" + ReprItems(v, xs) + ")"
    case VDict(es) => "{" + ReprEntries(v, es) + "}"
    case VNode(_, xs) => "[" + ReprItems(v, xs) + "]"
  }

  /** The reprs of the items of the container `owner`, joined with ", ". */
  function ReprItems(ghost owner: Value, xs: seq<Value>): string
    requires forall i :: 0 <= i < |xs| ==> xs[i] < owner
    decreases owner, 0, |xs|
  {
    if xs == [] then []
    else if |xs| == 1 then Repr(xs[0])
    else Repr(xs[0]) + ", " + ReprItems(owner, xs[1..])
  }

  function ReprEntries(ghost owner: Value, es: seq<(string, Value)>): string
    requires forall i :: 0 <= i < |es| ==> es[i].1 < owner
    decreases owner, 0, |es|
  {
    if es == [] then []
    else
      var head := QuoteRepr(es[0].0) + ": " + Repr(es[0].1);
      if |es| == 1 then head else head + ", " + ReprEntries(owner, es[1..])
  }

  /** Python's `str(v)`: a string is itself, anything else its repr. */
  function Str(v: Value): (r: string)
    ensures v.VStr? ==> r == v.s
    ensures !v.VStr? ==> r == Repr(v)
  {
    if v.VStr? then v.s else Repr(v)
  }

  /** The values whose `is None` test is true. */
  predicate IsNone(v: Value) {
    v.VNull?
  }
}
