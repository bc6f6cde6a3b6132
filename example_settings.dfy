/**
 * The settings module of the example solution, `solutions/example/settings.py`:
 * a validator that checks the two indices a two-sum answer names, a
 * generator of random two-sum cases with a known answer, and the `TESTS`
 * list the engine runs next to the test file.
 *
 * `random.randint` is a parameter: each call is given an arbitrary integer
 * draw, which `RandInt` maps into the requested range.
 */
module ExampleSettings {
  import opened Wrappers
  import opened Values
  import Results
  import Testing
  import Testers
  import TwoSum

  // ---------------------------------------------------------------------------
  // validator

  /** Python's `a + b` on the values the validator adds: numbers add (a bool
      counts as 0 or 1), strings, lists and tuples concatenate, anything else
      raises `TypeError`. */
  function Plus(a: Value, b: Value): (r: Result<Value>)
    ensures (a.VInt? || a.VBool?) && (b.VInt? || b.VBool?) ==> r == Ok(VInt(Num(a) + Num(b)))
    ensures r.Err? ==> r.error == TypeError
  {
    if (a.VInt? || a.VBool?) && (b.VInt? || b.VBool?) then Ok(VInt(Num(a) + Num(b)))
    else if a.VStr? && b.VStr? then Ok(VStr(a.s + b.s))
    else if a.VList? && b.VList? then Ok(VList(a.items + b.items))
    else if a.VTuple? && b.VTuple? then Ok(VTuple(a.items + b.items))
    else Err(TypeError)
  }

  /** `xs[k]` for a value `k`: an integer (or a bool) indexes, counting from
      the end when negative; any other index raises `TypeError`. */
  function Index(xs: Value, k: Value): (r: Result<Value>)
    ensures k.VInt? && xs.VList? && 0 <= k.i < |xs.items| ==> r == Ok(xs.items[k.i])
  {
    if k.VInt? || k.VBool? then Subscript(xs, Num(k)) else Err(TypeError)
  }

  /** `args[k]` on the list of arguments. */
  function Arg(args: seq<Value>, k: nat): (r: Result<Value>)
    ensures r.Ok? <==> k < |args|
    ensures r.Ok? ==> r.value == args[k]
  {
    if k < |args| then Ok(args[k]) else Err(IndexError)
  }

  /** `validator(args_before, args_after, expected, result)`: the numbers and
      the target are the arguments before the call, the two indices are the
      first two items of the result, and the verdict is whether the numbers
      at those indices add up to the target. */
  function Validator(argsBefore: seq<Value>, argsAfter: seq<Value>, expected: Value, result: Value): (r: Result<Value>)
    ensures r.Ok? ==> r.value.VBool?
    ensures |argsBefore| < 2 ==> r == Err(IndexError)
  {
    var nums :- Arg(argsBefore, 0);
    var target :- Arg(argsBefore, 1);
    var i :- Subscript(result, 0);
    var j :- Subscript(result, 1);
    var a :- Index(nums, i);
    var b :- Index(nums, j);
    var sum :- Plus(a, b);
    Ok(VBool(PyEq(sum, target)))
  }

  /** The integers as Python `int`s. */
  function Ints(xs: seq<int>): (vs: seq<Value>)
    ensures |vs| == |xs| && forall k :: 0 <= k < |xs| ==> vs[k] == VInt(xs[k])
  {
    seq(|xs|, k requires 0 <= k < |xs| => VInt(xs[k]))
  }

  /** The arguments of a two-sum case. */
  function CaseArgs(nums: seq<int>, target: int): seq<Value> {
    [VList(Ints(nums)), VInt(target)]
  }

  /** The validator accepts the indices `[a, b]` of a two-sum case exactly
      when the numbers at them add up to the target. */
  lemma {:induction false} ValidatorDecides(nums: seq<int>, target: int, a: nat, b: nat, after: seq<Value>, expected: Value)
    requires a < |nums| && b < |nums|
    ensures Validator(CaseArgs(nums, target), after, expected, VList([VInt(a), VInt(b)]))
      == Ok(VBool(nums[a] + nums[b] == target))
  {
    var r := VList([VInt(a), VInt(b)]);
    assert Subscript(r, 0) == Ok(VInt(a)) && Subscript(r, 1) == Ok(VInt(b));
  }

  /** Every answer of the sample solution passes the validator. */
  lemma {:induction false} SolutionPasses(nums: seq<int>, target: int, after: seq<Value>, expected: Value)
    requires TwoSum.FirstPair(nums, target).Some?
    ensures Validator(CaseArgs(nums, target), after, expected, TwoSum.AsValue(TwoSum.FirstPair(nums, target))) == Ok(VBool(true))
  {
    TwoSum.FirstPairSpec(nums, target);
    var (j, i) := TwoSum.FirstPair(nums, target).value;
    ValidatorDecides(nums, target, j, i, after, expected);
  }

  // ---------------------------------------------------------------------------
  // generator

  /** `random.randint(a, b)` given the draw `x`: a number in `[a, b]`, and
      `ValueError` for an empty range. */
  function RandInt(a: int, b: int, x: int): (r: Result<int>)
    ensures r.Ok? <==> a <= b
    ensures r.Ok? ==> a <= r.value <= b
    ensures r.Err? ==> r.error == ValueError
  {
    if a > b then Err(ValueError) else Ok(a + x % (b - a + 1))
  }

  /** The draws of one generator call: the length, the numbers, the first
      index, the second index, and the redraws of the second index. The
      redraws are finite: a second index that never differs from the first
      keeps the loop going for ever, `Blocked`. */
  datatype Rolls = Rolls(len: int, values: nat -> int, i: int, j: int, redraws: seq<int>)

  /** `while i == j: j = random.randint(0, len(nums) - 1)`, from the second
      index `j`. */
  function Redraw(i: int, j: int, n: nat, redraws: seq<int>): (r: Result<int>)
    requires n >= 1
    ensures r.Ok? ==> r.value != i && (r.value == j || 0 <= r.value < n)
    ensures r.Err? ==> r.error == Blocked
    decreases |redraws|
  {
    if j != i then Ok(j)
    else if redraws == [] then Err(Blocked)
    else Redraw(i, RandInt(0, n - 1, redraws[0]).value, n, redraws[1..])
  }

  /** `[random.randint(min_value, max_value) for _ in range(n)]`. */
  function Numbers(minValue: int, maxValue: int, values: nat -> int, n: nat): (nums: seq<int>)
    requires minValue <= maxValue
    ensures |nums| == n && forall k :: 0 <= k < n ==> minValue <= nums[k] <= maxValue
  {
    var nums := seq(n, k requires 0 <= k < n => RandInt(minValue, maxValue, values(k)).value);
    assert forall k :: 0 <= k < n ==> nums[k] == RandInt(minValue, maxValue, values(k)).value;
    nums
  }

  /** The draws of `generator(min_value, max_value, nums_max_len)`: between
      2 and `nums_max_len` numbers in `[min_value, max_value]` and two
      distinct indices into them. It raises `ValueError` exactly when one of
      the ranges it draws from is empty, and blocks on redraws that keep
      hitting the first index. */
  function Drawn(minValue: int, maxValue: int, maxLen: int, rolls: Rolls): (r: Result<(seq<int>, nat, nat)>)
    ensures (r.Err? && r.error == ValueError) <==> maxLen < 2 || minValue > maxValue
    ensures r.Ok? ==> var (nums, i, j) := r.value;
      && 2 <= |nums| <= maxLen
      && (forall k :: 0 <= k < |nums| ==> minValue <= nums[k] <= maxValue)
      && i < |nums| && j < |nums| && i != j
  {
    var n :- RandInt(2, maxLen, rolls.len);
    if minValue > maxValue then Err(ValueError)
    else
      var nums := Numbers(minValue, maxValue, rolls.values, n);
      var i := RandInt(0, n - 1, rolls.i).value;
      var j :- Redraw(i, RandInt(1, n - 1, rolls.j).value, n, rolls.redraws);
      Ok((nums, i, j))
  }

  /** `generator(...)`: the case `([nums, nums[i] + nums[j]], [i, j])`. */
  function Generated(minValue: int, maxValue: int, maxLen: int, rolls: Rolls): (r: Result<(seq<Value>, Value)>)
    ensures r.Ok? <==> Drawn(minValue, maxValue, maxLen, rolls).Ok?
  {
    var (nums, i, j) :- Drawn(minValue, maxValue, maxLen, rolls);
    Ok((CaseArgs(nums, nums[i] + nums[j]), VList([VInt(i), VInt(j)])))
  }

  /** The generator, with its redraw loop. */
  method Generator(minValue: int, maxValue: int, maxLen: int, rolls: Rolls) returns (r: Result<(seq<Value>, Value)>)
    ensures r == Generated(minValue, maxValue, maxLen, rolls)
  {
    var len := RandInt(2, maxLen, rolls.len);
    if len.Err? {
      return Err(len.error);
    }
    var n := len.value;
    if minValue > maxValue {
      return Err(ValueError);
    }
    var nums := Numbers(minValue, maxValue, rolls.values, n);
    var i := RandInt(0, n - 1, rolls.i).value;
    var j := RandInt(1, n - 1, rolls.j).value;
    ghost var j0 := j;
    var k := 0;
    while i == j
      invariant 0 <= k <= |rolls.redraws| && 0 <= j < n
      invariant Redraw(i, j0, n, rolls.redraws) == Redraw(i, j, n, rolls.redraws[k..])
      decreases |rolls.redraws| - k
    {
      if k == |rolls.redraws| {
        return Err(Blocked);
      }
      assert rolls.redraws[k..][1..] == rolls.redraws[k + 1..];
      j := RandInt(0, n - 1, rolls.redraws[k]).value;
      k := k + 1;
    }
    r := Ok((CaseArgs(nums, nums[i] + nums[j]), VList([VInt(i), VInt(j)])));
  }

  /** Every generated case passes the validator with the indices the
      generator returns, and the sample solution finds an answer to it that
      passes too. */
  lemma {:induction false} GeneratedPasses(minValue: int, maxValue: int, maxLen: int, rolls: Rolls, after: seq<Value>)
    requires Drawn(minValue, maxValue, maxLen, rolls).Ok?
    ensures var (nums, i, j) := Drawn(minValue, maxValue, maxLen, rolls).value;
      var (args, expected) := Generated(minValue, maxValue, maxLen, rolls).value;
      && args == CaseArgs(nums, nums[i] + nums[j])
      && Validator(args, after, expected, expected) == Ok(VBool(true))
      && TwoSum.FirstPair(nums, nums[i] + nums[j]).Some?
      && Validator(args, after, expected, TwoSum.AsValue(TwoSum.FirstPair(nums, nums[i] + nums[j]))) == Ok(VBool(true))
  {
    var (nums, i, j) := Drawn(minValue, maxValue, maxLen, rolls).value;
    var target := nums[i] + nums[j];
    var expected := VList([VInt(i), VInt(j)]);
    assert Generated(minValue, maxValue, maxLen, rolls).value == (CaseArgs(nums, target), expected);
    assert Validator(CaseArgs(nums, target), after, expected, expected) == Ok(VBool(true)) by {
      ValidatorDecides(nums, target, i, j, after, expected);
    }
    assert TwoSum.FirstPair(nums, target).Some? by {
      TwoSum.PairFound(nums, target, i, j);
    }
    SolutionPasses(nums, target, after, expected);
  }

  /** `normal_generator()`: cases of up to 100 numbers in `[-1000, 1000]`. */
  function NormalGenerator(rolls: Rolls): Result<(seq<Value>, Value)> {
    Generated(-1000, 1000, 100, rolls)
  }

  /** `stress_generator()`: cases of up to 10^4 numbers in `[-10^9, 10^9]`. */
  function StressGenerator(rolls: Rolls): Result<(seq<Value>, Value)> {
    Generated(-1000000000, 1000000000, 10000, rolls)
  }

  /** A generator as the engine calls it: call `k` with the draws `rolls(k)`,
      its `(args, expected)` tuple as a value. */
  function AsDraw(gen: Rolls -> Result<(seq<Value>, Value)>, rolls: nat -> Rolls): nat -> Result<Value> {
    (k: nat) =>
      var c := gen(rolls(k));
      if c.Err? then Err(c.error) else Ok(VTuple([VList(c.value.0), c.value.1]))
  }

  /** The generated tuple always unpacks into the case the generator built. */
  lemma {:induction false} DrawUnpacks(gen: Rolls -> Result<(seq<Value>, Value)>, rolls: nat -> Rolls, k: nat)
    requires gen(rolls(k)).Ok?
    ensures AsDraw(gen, rolls)(k).Ok?
    ensures Testing.Unpack(AsDraw(gen, rolls)(k).value) == Ok(Testers.Case(VList(gen(rolls(k)).value.0), gen(rolls(k)).value.1))
  {
  }

  // ---------------------------------------------------------------------------
  // the settings

  /** `TESTS`: one fixed case, the normal generator 100 times and the stress
      generator once (no count). */
  function Tests(normal: nat -> Rolls, stress: nat -> Rolls): (ts: seq<Testing.TestEntry>)
    ensures |ts| == 3
  {
    [ Testing.TestEntry(Some(VList([VList(Ints([2, 7, 11, 15])), VInt(18)])), VList([VInt(1), VInt(2)]), Testing.NoGeneratorKey, VNull),
      Testing.TestEntry(None, VNull, Testing.Generator(AsDraw(NormalGenerator, normal)), VInt(100)),
      Testing.TestEntry(None, VNull, Testing.Generator(AsDraw(StressGenerator, stress)), VNull) ]
  }

  /** The settings module: no `TESTER` and no `TARGET`, so the tester is
      detected and the first method of `Solution` is tested; the validator;
      no runner; and `TESTS`. */
  function Settings(normal: nat -> Rolls, stress: nat -> Rolls): Testing.Settings {
    Testing.Settings(Testing.Unset, Testing.Unset, Testing.SetTo(Validator), None, Tests(normal, stress))
  }

  /** The engine runs the fixed case once, the normal generator 100 times
      and the stress generator once. */
  lemma {:induction false} TestsRun(normal: nat -> Rolls, stress: nat -> Rolls)
    ensures var ts := Tests(normal, stress);
      && Testing.BatchData(Testing.EntryBatch(ts[0])) == Ok(Some(Testing.Listed([Testing.Given(ts[0].args.value, ts[0].expected)])))
      && Testing.BatchData(Testing.EntryBatch(ts[1])).Ok?
      && Testing.BatchData(Testing.EntryBatch(ts[1])).value.Some?
      && |Testing.BatchData(Testing.EntryBatch(ts[1])).value.value.items| == 100
      && Testing.BatchData(Testing.EntryBatch(ts[2])).Ok?
      && Testing.BatchData(Testing.EntryBatch(ts[2])).value.Some?
      && |Testing.BatchData(Testing.EntryBatch(ts[2])).value.value.items| == 1
  {
  }

  /** The fixed case: the sample solution answers `[1, 2]` for
      `[2, 7, 11, 15]` and 18, its expected value, and the validator agrees. */
  lemma {:induction false} FixedCasePasses()
    ensures TwoSum.FirstPair([2, 7, 11, 15], 18) == Some((1, 2))
    ensures TwoSum.AsValue(Some((1, 2))) == VList([VInt(1), VInt(2)])
    ensures Validator(CaseArgs([2, 7, 11, 15], 18), CaseArgs([2, 7, 11, 15], 18), VList([VInt(1), VInt(2)]), VList([VInt(1), VInt(2)])) == Ok(VBool(true))
  {
    var nums := [2, 7, 11, 15];
    assert TwoSum.LastPartner(nums, 18, 0, 0).None?;
    assert TwoSum.LastPartner(nums, 18, 1, 1).None?;
    assert TwoSum.LastPartner(nums, 18, 2, 2) == Some(1);
    ValidatorDecides(nums, 18, 1, 2, CaseArgs(nums, 18), VList([VInt(1), VInt(2)]));
  }
}
