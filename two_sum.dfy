/**
 * The sample solution `solution.py`: `Solution.twoSum` walks the numbers
 * once, remembering in a dictionary the latest index of every number seen,
 * and answers `[j, i]` as soon as the complement of `nums[i]` has been seen
 * at `j`; with no such pair it falls off the end and returns `None`.
 */
module TwoSum {
  import opened Wrappers
  import opened Values

  /** `nums[j] + nums[i] == target` for an earlier index `j`. */
  predicate PairAt(nums: seq<int>, target: int, j: int, i: int) {
    0 <= j < i < |nums| && nums[j] + nums[i] == target
  }

  /** The latest index below `k` whose number completes `nums[i]`. */
  function LastPartner(nums: seq<int>, target: int, i: nat, k: nat): (r: Option<nat>)
    requires i < |nums| && k <= i
    ensures r.Some? ==> r.value < k && PairAt(nums, target, r.value, i)
    ensures r.Some? ==> forall j :: r.value < j < k ==> !PairAt(nums, target, j, i)
    ensures r.None? ==> forall j :: 0 <= j < k ==> !PairAt(nums, target, j, i)
  {
    if k == 0 then None
    else if nums[k - 1] + nums[i] == target then Some(k - 1)
    else LastPartner(nums, target, i, k - 1)
  }

  /** The reference answer, searched from index `i` on: the first index with
      a partner before it, and its latest partner. */
  function FirstPairFrom(nums: seq<int>, target: int, i: nat): Option<(nat, nat)>
    requires i <= |nums|
    decreases |nums| - i
  {
    if i == |nums| then None
    else match LastPartner(nums, target, i, i)
      case Some(j) => Some((j, i))
      case None => FirstPairFrom(nums, target, i + 1)
  }

  /** The reference answer, `(j, i)` for the result `[j, i]`. */
  function FirstPair(nums: seq<int>, target: int): Option<(nat, nat)> {
    FirstPairFrom(nums, target, 0)
  }

  /** No pair ends before index `i`. */
  ghost predicate NoPairBefore(nums: seq<int>, target: int, i: int) {
    forall b, a :: 0 <= b < i && PairAt(nums, target, a, b) ==> false
  }

  lemma {:induction false} FirstPairFromSpec(nums: seq<int>, target: int, i: nat)
    requires i <= |nums| && NoPairBefore(nums, target, i)
    ensures var r := FirstPairFrom(nums, target, i);
      && (r.None? <==> NoPairBefore(nums, target, |nums|))
      && (r.Some? ==>
            var (j, k) := r.value;
            && PairAt(nums, target, j, k)
            && NoPairBefore(nums, target, k)
            && forall m :: j < m < k ==> !PairAt(nums, target, m, k))
    decreases |nums| - i
  {
    if i < |nums| && LastPartner(nums, target, i, i).None? {
      FirstPairFromSpec(nums, target, i + 1);
    }
  }

  /** The answer of `twoSum`, stated outright: no answer exactly when no two
      numbers add up to the target; otherwise `[j, i]` with `j < i` adding up
      to it, `i` the first index that completes an earlier number, and `j`
      the latest such earlier index, because a later index overwrites an
      earlier one in the dictionary. */
  lemma FirstPairSpec(nums: seq<int>, target: int)
    ensures FirstPair(nums, target).None? <==> forall j, i :: 0 <= j < i < |nums| ==> nums[j] + nums[i] != target
    ensures FirstPair(nums, target).Some? ==>
      var (j, i) := FirstPair(nums, target).value;
      && 0 <= j < i < |nums| && nums[j] + nums[i] == target
      && (forall b, a :: 0 <= a < b < i ==> nums[a] + nums[b] != target)
      && (forall m :: j < m < i ==> nums[m] + nums[i] != target)
  {
    FirstPairFromSpec(nums, target, 0);
    if FirstPair(nums, target).None? {
      forall j, i | 0 <= j < i < |nums| ensures nums[j] + nums[i] != target {
        assert !PairAt(nums, target, j, i);
      }
    } else {
      var (j, i) := FirstPair(nums, target).value;
      forall b, a | 0 <= a < b < i ensures nums[a] + nums[b] != target {
        assert !PairAt(nums, target, a, b);
      }
      forall m | j < m < i ensures nums[m] + nums[i] != target {
        assert !PairAt(nums, target, m, i);
      }
    }
  }

  /** `Solution().twoSum(nums, target)`: the dictionary maps each number seen
      so far to the latest index holding it. The numbers are only read. */
  method TwoSum(nums: seq<int>, target: int) returns (r: Option<(nat, nat)>)
    ensures r == FirstPair(nums, target)
  {
    var indexMap: map<int, nat> := map[];
    var i := 0;
    while i < |nums|
      invariant 0 <= i <= |nums|
      invariant forall x :: x in indexMap ==> indexMap[x] < i && nums[indexMap[x]] == x
      invariant forall j :: 0 <= j < i ==> nums[j] in indexMap && j <= indexMap[nums[j]]
      invariant FirstPair(nums, target) == FirstPairFrom(nums, target, i)
    {
      var complement := target - nums[i];
      if complement in indexMap {
        var j := indexMap[complement];
        var found := LastPartner(nums, target, i, i);
        assert PairAt(nums, target, j, i);
        assert found.Some?;
        assert nums[found.value] == complement;
        assert found == Some(j);
        return Some((j, i));
      }
      assert forall j :: 0 <= j < i ==> nums[j] != complement;
      assert LastPartner(nums, target, i, i).None?;
      indexMap := indexMap[nums[i] := i];
      i := i + 1;
    }
    r := None;
  }

  /** What the method hands back to the harness: the list `[j, i]`, or
      `None`. */
  function AsValue(r: Option<(nat, nat)>): (v: Value)
    ensures r.None? <==> v == VNull
    ensures r.Some? ==> v == VList([VInt(r.value.0), VInt(r.value.1)])
  {
    match r
    case None => VNull
    case Some((j, i)) => VList([VInt(j), VInt(i)])
  }

  /** Two numbers at distinct indices that add up to the target give an
      answer. */
  lemma {:induction false} PairFound(nums: seq<int>, target: int, a: nat, b: nat)
    requires a < |nums| && b < |nums| && a != b && nums[a] + nums[b] == target
    ensures FirstPair(nums, target).Some?
  {
    FirstPairSpec(nums, target);
    if a < b {
      assert nums[a] + nums[b] == target;
    } else {
      assert nums[b] + nums[a] == target;
    }
  }
}
