/**
 * The binary tree codec of `src/nodes/binary_tree_node.py`: breadth-first
 * level order with `None` for each missing child, decoded through a queue of
 * open (node, side) slots.
 *
 * A tree is described by the ghost sequence `layout` of its nodes in
 * breadth-first order. Its entries are the root followed by the left and right
 * child slots of every node in that order; `IsTree` says that the present
 * entries are exactly the layout and that each is reached before the queue of
 * a breadth-first walk runs out.
 */
module BinaryTreeNodes {
  import opened Wrappers
  import opened Values
  import opened LevelOrder

  class BinaryTreeNode {
    const val: Value
    var left: BinaryTreeNode?
    var right: BinaryTreeNode?

    /** `BinaryTreeNode(val=None, left=None, right=None)`. */
    constructor (val: Value := VNull, left: BinaryTreeNode? := null, right: BinaryTreeNode? := null)
      ensures this.val == val && this.left == left && this.right == right
    {
      this.val := val;
      this.left := left;
      this.right := right;
    }

    /** Python's `to_list`: the breadth-first values with a `None` for every
        missing child, trailing `None`s removed. The tree is described by its
        breadth-first entries `e`, a missing child being an absent entry. */
    method ToList(ghost e: seq<Option<BinaryTreeNode>>) returns (values: seq<Value>)
      requires IsLevelOrder(this, e)
      ensures values == TrimNulls(EntryVals(e))
    {
      var queue: seq<Option<BinaryTreeNode>> := [Some(this)];
      values := [];
      ghost var p, m := 0, 0;
      while |queue| > 0
        invariant p <= |e| && m == CountSome(e[..p]) && p <= 1 + 2 * m <= |e|
        invariant queue == e[p..1 + 2 * m]
        invariant values == EntryVals(e[..p])
        decreases |e| - p
      {
        BfsPop(e, p, m);
        var entry := queue[0];
        queue := queue[1..];
        if entry.Some? {
          var node := entry.value;
          values := values + [node.val];
          queue := queue + [Opt(node.left), Opt(node.right)];
          m := m + 1;
        } else {
          values := values + [VNull];
        }
        p := p + 1;
      }
      assert values == EntryVals(e) by {
        DrainsAtEnd(e, p);
        assert e[..p] == e;
      }
      ghost var full := values;
      while |values| > 0 && values[|values| - 1].VNull?
        invariant TrimNulls(values) == TrimNulls(full)
        decreases |values|
      {
        values := values[..|values| - 1];
      }
    }

    /** One turn of the `from_list` loop: pop the oldest open slot and, for a
        value that is not `None`, hang a new node holding it there and open
        its two slots. */
    static method Place(value: Value, queue: seq<(BinaryTreeNode, bool)>, ghost values: seq<Value>, ghost f: seq<Option<BinaryTreeNode>>, ghost layout: seq<BinaryTreeNode>, ghost root: BinaryTreeNode)
      returns (queue': seq<(BinaryTreeNode, bool)>, ghost f': seq<Option<BinaryTreeNode>>, ghost layout': seq<BinaryTreeNode>)
      requires Building(values, f, layout, root, queue) && SlotsMatch(layout, f)
      requires |queue| > 0 && |f| + 2 <= |values| && value == values[|f| + 1]
      modifies queue[0].0
      ensures Building(values, f', layout', root, queue') && SlotsMatch(layout', f') && |f'| == |f| + 1
      ensures forall n :: n in layout' ==> n in layout || fresh(n)
    {
      BuildingPop(values, f, layout, root, queue);
      var slot := queue[0];
      queue' := queue[1..];
      if !value.VNull? {
        var child := new BinaryTreeNode(value);
        Attach(slot.0, slot.1, child, layout, f);
        queue' := queue' + [(child, true), (child, false)];
        FillBuilding(values, f, layout, root, queue, child);
        layout' := layout + [child];
        f' := f + [Some(child)];
      } else {
        SkipBuilding(values, f, layout, root, queue);
        SkippedSlot(layout, f);
        f', layout' := f + [None], layout;
      }
    }

    /** `setattr(node, side, child)` on the slot `from_list` fills next: the
        new leaf `child` becomes the filler of slot `|f|`. */
    static method Attach(parent: BinaryTreeNode, isLeft: bool, child: BinaryTreeNode, ghost layout: seq<BinaryTreeNode>, ghost f: seq<Option<BinaryTreeNode>>)
      requires |f| < 2 * |layout| && parent == layout[|f| / 2] && isLeft == (|f| % 2 == 0)
      requires SlotsMatch(layout, f) && Distinct(layout)
      requires child !in layout && child.left == null && child.right == null
      modifies parent
      ensures SlotsMatch(layout + [child], f + [Some(child)])
    {
      ghost var t := |f|;
      assert Row(layout, f, t / 2);
      if isLeft {
        parent.left := child;
      } else {
        parent.right := child;
      }
      assert Matched(layout, f, t / 2) by {
        forall i | 0 <= i < |layout| && i != t / 2 ensures Row(layout, f, i) {
          assert old(Row(layout, f, i));
          assert layout[i] != parent;
        }
      }
      FilledSlot(layout, f, child);
    }

    /** Python's `from_list`: no tree for an empty list; otherwise the root
        holds `values[0]` and each later value takes the oldest open slot,
        filling it and opening two more when it is not `None`. Running out of
        slots is the `IndexError` of `popleft` on an empty deque. */
    static method FromList(values: seq<Value>) returns (r: Result<BinaryTreeNode?>, ghost layout: seq<BinaryTreeNode>)
      ensures values == [] ==> r == Ok(null)
      ensures r.Ok? <==> BinaryFits(values)
      ensures r.Err? ==> r.error == IndexError
      ensures r.Ok? && values != [] ==> r.value != null && DecodedAs(values, r.value, layout)
    {
      if values == [] {
        return Ok(null), [];
      }
      var root := new BinaryTreeNode(values[0]);
      var queue: seq<(BinaryTreeNode, bool)> := [(root, true), (root, false)];
      layout := [root];
      ghost var f: seq<Option<BinaryTreeNode>> := [];
      var k := 1;
      Begun(values, root);
      while k < |values|
        invariant 1 <= k <= |values| && |f| == k - 1
        invariant Building(values, f, layout, root, queue)
        invariant SlotsMatch(layout, f)
        invariant forall n :: n in layout ==> fresh(n)
      {
        if |queue| == 0 {
          OutOfSlots(values, f, layout, root, queue);
          return Err(IndexError), layout;
        }
        BuildingPop(values, f, layout, root, queue);
        queue, f, layout := Place(values[k], queue, values, f, layout, root);
        k := k + 1;
      }
      Decoded(values, f, layout, root, queue);
      r := Ok(root);
    }
  }

  function Opt(n: BinaryTreeNode?): (o: Option<BinaryTreeNode>)
    ensures o.Some? <==> n != null
    ensures o.Some? ==> o.value == n
  {
    if n == null then None else Some(n)
  }

  /** The left and right child slots of every node, in order. */
  ghost function Slots(layout: seq<BinaryTreeNode>): (s: seq<Option<BinaryTreeNode>>)
    reads layout
    ensures |s| == 2 * |layout|
    ensures forall i :: 0 <= i < |layout| ==> s[2 * i] == Opt(layout[i].left) && s[2 * i + 1] == Opt(layout[i].right)
  {
    if layout == [] then []
    else
      var n := layout[|layout| - 1];
      Slots(layout[..|layout| - 1]) + [Opt(n.left), Opt(n.right)]
  }

  /** The breadth-first entries of a tree: its root, then every slot. */
  ghost function Entries(layout: seq<BinaryTreeNode>): (e: seq<Option<BinaryTreeNode>>)
    requires |layout| >= 1
    reads layout
    ensures |e| == 1 + 2 * |layout| && e[0] == Some(layout[0]) && e[1..] == Slots(layout)
  {
    [Some(layout[0])] + Slots(layout)
  }

  /** `layout` lists, in breadth-first order, the nodes of the tree rooted at
      `layout[0]`. */
  ghost predicate IsTree(layout: seq<BinaryTreeNode>)
    reads layout
  {
    && |layout| >= 1
    && Somes(Entries(layout)) == layout
    && Connected(Entries(layout))
  }

  /** The value an entry contributes to `to_list`. */
  ghost function ValOf(entry: Option<BinaryTreeNode>): Value
  {
    if entry.Some? then entry.value.val else VNull
  }

  /** The nodes present among some entries. */
  ghost function Nodes(es: seq<Option<BinaryTreeNode>>): set<BinaryTreeNode> {
    set i | 0 <= i < |es| && es[i].Some? :: es[i].value
  }

  ghost function EntryVals(es: seq<Option<BinaryTreeNode>>): (vs: seq<Value>)
    ensures |vs| == |es| && forall i :: 0 <= i < |es| ==> vs[i] == ValOf(es[i])
  {
    if es == [] then [] else EntryVals(es[..|es| - 1]) + [ValOf(es[|es| - 1])]
  }

  /** The breadth-first values of a tree before trimming: one per entry. */
  ghost function LevelOrderVals(layout: seq<BinaryTreeNode>): (vs: seq<Value>)
    requires |layout| >= 1
    reads layout
  {
    EntryVals(Entries(layout))
  }

  /** Every present entry's children sit in the two slots it opens: the ones
      after the slots of the entries present before it. */
  ghost predicate Wired(e: seq<Option<BinaryTreeNode>>)
    reads Nodes(e)
  {
    forall u {:trigger Before(e, u)} :: 0 <= u < |e| && e[u].Some? ==>
      && 3 + 2 * Before(e, u) <= |e|
      && e[1 + 2 * Before(e, u)] == Opt(e[u].value.left)
      && e[2 + 2 * Before(e, u)] == Opt(e[u].value.right)
  }

  /** `e` is the breadth-first entry sequence of the tree rooted at `root`:
      `root` first, every present entry's two children in order, and every
      entry reached before the queue of open slots runs out. */
  ghost predicate IsLevelOrder(root: BinaryTreeNode, e: seq<Option<BinaryTreeNode>>)
    reads Nodes(e)
  {
    && |e| == 1 + 2 * CountSome(e)
    && e[0] == Some(root)
    && Connected(e)
    && Wired(e)
  }

  /** The entries of a tree laid out breadth-first are its level order. */
  lemma {:induction false} TreeLevelOrder(layout: seq<BinaryTreeNode>)
    requires IsTree(layout)
    ensures IsLevelOrder(layout[0], Entries(layout))
  {
    var e := Entries(layout);
    forall u | 0 <= u < |e| && e[u].Some?
      ensures 3 + 2 * Before(e, u) <= |e|
      ensures e[1 + 2 * Before(e, u)] == Opt(e[u].value.left)
      ensures e[2 + 2 * Before(e, u)] == Opt(e[u].value.right)
    {
      SomesAt(e, u);
      ChildEntries(layout, Before(e, u));
    }
  }

  /** One turn of the `to_list` loop: the oldest queued entry is `e[p]`, and
      a present one queues the two entries after the current end of the queue,
      which are its children. */
  lemma {:induction false} BfsPop(e: seq<Option<BinaryTreeNode>>, p: nat, m: nat)
    requires Wired(e) && p < 1 + 2 * m <= |e| && m == CountSome(e[..p])
    ensures CountSome(e[..p + 1]) == m + (if e[p].Some? then 1 else 0)
    ensures e[p..1 + 2 * m][0] == e[p] && e[p..1 + 2 * m][1..] == e[p + 1..1 + 2 * m]
    ensures EntryVals(e[..p + 1]) == EntryVals(e[..p]) + [ValOf(e[p])]
    ensures e[p].Some? ==>
      && 3 + 2 * m <= |e|
      && e[p + 1..1 + 2 * m] + [Opt(e[p].value.left), Opt(e[p].value.right)] == e[p + 1..3 + 2 * m]
  {
    CountSomeStep(e, p);
    EntryValsStep(e, p);
    if e[p].Some? {
      assert m == Before(e, p);
      SliceGrows(e, p + 1, 1 + 2 * m);
    }
  }

  lemma {:induction false} SliceGrows<T>(e: seq<T>, a: nat, b: nat)
    requires a <= b && b + 2 <= |e|
    ensures e[a..b + 2] == e[a..b] + [e[b], e[b + 1]]
  {
  }

  lemma {:induction false} EntryValsStep(es: seq<Option<BinaryTreeNode>>, p: nat)
    requires p < |es|
    ensures EntryVals(es[..p + 1]) == EntryVals(es[..p]) + [ValOf(es[p])]
  {
    assert es[..p + 1][..p] == es[..p];
  }

  /** The entries of node `m`'s children follow the `m + 1` present entries
      that open them. */
  lemma {:induction false} ChildEntries(layout: seq<BinaryTreeNode>, m: nat)
    requires m < |layout|
    ensures Entries(layout)[1 + 2 * m] == Opt(layout[m].left)
    ensures Entries(layout)[2 + 2 * m] == Opt(layout[m].right)
  {
    var sl := Slots(layout);
    assert sl[2 * m] == Opt(layout[m].left) && sl[2 * m + 1] == Opt(layout[m].right);
  }

  // ---------------------------------------------------------------------------
  // proof steps of from_list

  /** The open slots from slot `t` on, as the `(node, direction)` pairs of the
      decoder's deque; `true` stands for "left". */
  function Pending(layout: seq<BinaryTreeNode>, t: nat): (q: seq<(BinaryTreeNode, bool)>)
    requires t <= 2 * |layout|
    ensures |q| == 2 * |layout| - t
    decreases 2 * |layout| - t
  {
    if t == 2 * |layout| then [] else [(layout[t / 2], t % 2 == 0)] + Pending(layout, t + 1)
  }

  lemma {:induction false} PendingAppend(layout: seq<BinaryTreeNode>, t: nat, child: BinaryTreeNode)
    requires t <= 2 * |layout|
    ensures Pending(layout + [child], t) == Pending(layout, t) + [(child, true), (child, false)]
    decreases 2 * |layout| - t
  {
    var l := layout + [child];
    if t == 2 * |layout| {
      assert Pending(l, t + 2) == [];
    } else {
      PendingAppend(layout, t + 1, child);
    }
  }

  /** Slot `t` of a partly filled queue: its filler, or empty while unreached. */
  function SlotF(f: seq<Option<BinaryTreeNode>>, t: nat): Option<BinaryTreeNode> {
    if t < |f| then f[t] else None
  }

  /** The children of the layout nodes are the fillers of their slots. */
  ghost predicate SlotsMatch(layout: seq<BinaryTreeNode>, f: seq<Option<BinaryTreeNode>>)
    reads layout
  {
    forall i :: 0 <= i < |layout| ==> Row(layout, f, i)
  }

  /** Node `i`'s children are the fillers of its two slots. */
  ghost predicate Row(layout: seq<BinaryTreeNode>, f: seq<Option<BinaryTreeNode>>, i: nat)
    requires i < |layout|
    reads layout[i]
  {
    Opt(layout[i].left) == SlotF(f, 2 * i) && Opt(layout[i].right) == SlotF(f, 2 * i + 1)
  }

  /** Every node but node `skip` has its children matched to its slots. */
  ghost predicate Matched(layout: seq<BinaryTreeNode>, f: seq<Option<BinaryTreeNode>>, skip: nat)
    reads layout
  {
    forall i :: 0 <= i < |layout| && i != skip ==> Row(layout, f, i)
  }

  /** Filling slot `|f|` with a fresh leaf `child` and appending the child to
      the layout keeps the children matched to the slots. */
  lemma {:induction false} FilledSlot(layout: seq<BinaryTreeNode>, f: seq<Option<BinaryTreeNode>>, child: BinaryTreeNode)
    requires |f| < 2 * |layout| && Matched(layout, f, |f| / 2)
    requires child.left == null && child.right == null
    requires var n := layout[|f| / 2];
      if |f| % 2 == 0 then n.left == child && Opt(n.right) == SlotF(f, |f| + 1)
      else n.right == child && Opt(n.left) == SlotF(f, |f| - 1)
    ensures SlotsMatch(layout + [child], f + [Some(child)])
  {
    var l, g := layout + [child], f + [Some(child)];
    forall i | 0 <= i < |l| ensures Row(l, g, i) {
      if i < |layout| && i != |f| / 2 {
        assert Row(layout, f, i);
      }
    }
  }

  /** Skipping slot `|f|` leaves every slot as it was. */
  lemma {:induction false} SkippedSlot(layout: seq<BinaryTreeNode>, f: seq<Option<BinaryTreeNode>>)
    requires |f| < 2 * |layout| && SlotsMatch(layout, f)
    ensures SlotsMatch(layout, f + [None])
  {
    forall i | 0 <= i < |layout| ensures Row(layout, f + [None], i) {
      assert Row(layout, f, i);
    }
  }

  /** The values of the fillers of the first slots, `None` for a skipped one. */
  function OptVals(f: seq<Option<BinaryTreeNode>>): (r: seq<Option<Value>>)
    ensures |r| == |f| && forall t :: 0 <= t < |f| ==> r[t] == (if f[t].Some? then Some(f[t].value.val) else None)
  {
    if f == [] then [] else OptVals(f[..|f| - 1]) + [if f[|f| - 1].Some? then Some(f[|f| - 1].value.val) else None]
  }

  /** What `from_list` has built after the values before `|f| + 1`: the root
      holds `values[0]`, the present nodes are the root and the fillers `f` of
      the first slots, no slot was filled before it opened, and each filler
      holds the value read for its slot, `None` leaving the slot empty. */
  ghost predicate Decoding(values: seq<Value>, f: seq<Option<BinaryTreeNode>>, layout: seq<BinaryTreeNode>, root: BinaryTreeNode) {
    && |layout| >= 1 && layout[0] == root && |f| < |values| && root.val == values[0]
    && |layout| == 1 + CountSome(f) && Somes(f) == layout[1..]
    && |f| <= 2 * |layout| && Fits(f)
    && OptVals(f) == Holes(values[1..|f| + 1])
  }

  /** The state of the `from_list` loop: the decoding so far, the queue of the
      slots not yet filled, and every node created once. */
  ghost predicate Building(values: seq<Value>, f: seq<Option<BinaryTreeNode>>, layout: seq<BinaryTreeNode>, root: BinaryTreeNode, queue: seq<(BinaryTreeNode, bool)>) {
    && Decoding(values, f, layout, root)
    && queue == Pending(layout, |f|)
    && Distinct(layout)
  }

  /** The slot the queue hands out next is slot `|f|`. */
  lemma {:induction false} BuildingPop(values: seq<Value>, f: seq<Option<BinaryTreeNode>>, layout: seq<BinaryTreeNode>, root: BinaryTreeNode, queue: seq<(BinaryTreeNode, bool)>)
    requires Building(values, f, layout, root, queue) && |queue| > 0
    ensures |f| < 2 * |layout| && queue[0] == (layout[|f| / 2], |f| % 2 == 0) && queue[0].0 in layout
    ensures Distinct(layout)
  {
  }

  /** Filling the next slot with a new node. */
  lemma {:induction false} FillBuilding(values: seq<Value>, f: seq<Option<BinaryTreeNode>>, layout: seq<BinaryTreeNode>, root: BinaryTreeNode, queue: seq<(BinaryTreeNode, bool)>, child: BinaryTreeNode)
    requires Building(values, f, layout, root, queue) && |queue| > 0 && |f| + 2 <= |values|
    requires !values[|f| + 1].VNull? && child.val == values[|f| + 1] && child !in layout
    ensures Building(values, f + [Some(child)], layout + [child], root, queue[1..] + [(child, true), (child, false)])
  {
    BuildingPop(values, f, layout, root, queue);
    assert queue[1..] == Pending(layout, |f| + 1);
    DecodeStep(values, f, layout, root, Some(child));
    DistinctSnoc(layout, child);
  }

  /** Leaving the next slot empty for a `None`. */
  lemma {:induction false} SkipBuilding(values: seq<Value>, f: seq<Option<BinaryTreeNode>>, layout: seq<BinaryTreeNode>, root: BinaryTreeNode, queue: seq<(BinaryTreeNode, bool)>)
    requires Building(values, f, layout, root, queue) && |queue| > 0 && |f| + 2 <= |values|
    requires values[|f| + 1].VNull?
    ensures Building(values, f + [None], layout, root, queue[1..])
    ensures |f| < 2 * |layout|
  {
    DecodeStep(values, f, layout, root, None);
  }

  /** An empty queue with values left to read means the values do not fit. */
  lemma {:induction false} OutOfSlots(values: seq<Value>, f: seq<Option<BinaryTreeNode>>, layout: seq<BinaryTreeNode>, root: BinaryTreeNode, queue: seq<(BinaryTreeNode, bool)>)
    requires Building(values, f, layout, root, queue) && |f| + 1 < |values| && queue == []
    ensures !BinaryFits(values)
  {
    NoSlotLeft(values, f, |f| + 1);
  }

  /** The loop starts with the root alone and no slot filled. */
  lemma {:induction false} Begun(values: seq<Value>, root: BinaryTreeNode)
    requires |values| >= 1 && root.val == values[0]
    ensures Building(values, [], [root], root, [(root, true), (root, false)])
  {
    var f: seq<Option<BinaryTreeNode>> := [];
    assert Somes(f) == [] && CountSome(f) == 0;
    assert OptVals(f) == [] == Holes(values[1..1]);
    assert Pending([root], 2) == [];
  }

  /** `root` is the tree `from_list` builds for `values`: `layout` lists its
      nodes breadth-first, and its level-order values are `values` padded
      with `None`s. */
  ghost predicate DecodedAs(values: seq<Value>, root: BinaryTreeNode, layout: seq<BinaryTreeNode>)
    reads layout
  {
    && IsTree(layout) && layout[0] == root
    && |values| <= 1 + 2 * |layout|
    && LevelOrderVals(layout) == values + Nulls(1 + 2 * |layout| - |values|)
  }

  /** Once every value is read, the tree built is the one the values encode. */
  lemma {:induction false} Decoded(values: seq<Value>, f: seq<Option<BinaryTreeNode>>, layout: seq<BinaryTreeNode>, root: BinaryTreeNode, queue: seq<(BinaryTreeNode, bool)>)
    requires Building(values, f, layout, root, queue) && |f| + 1 == |values| && SlotsMatch(layout, f)
    ensures BinaryFits(values)
    ensures DecodedAs(values, root, layout)
  {
    assert values[1..|f| + 1] == values[1..];
    FitsSameShapeValues(values, f);
    BuiltIsTree(layout, f);
    BuiltLevelOrder(layout, f, values);
  }

  lemma {:induction false} DecodeStep(values: seq<Value>, f: seq<Option<BinaryTreeNode>>, layout: seq<BinaryTreeNode>, root: BinaryTreeNode, o: Option<BinaryTreeNode>)
    requires Decoding(values, f, layout, root) && |f| < 2 * |layout| && |f| + 2 <= |values|
    requires o.Some? <==> !values[|f| + 1].VNull?
    requires o.Some? ==> o.value.val == values[|f| + 1]
    ensures Decoding(values, f + [o], if o.Some? then layout + [o.value] else layout, root)
    ensures o.Some? ==> Pending(layout + [o.value], |f| + 1) == Pending(layout, |f| + 1) + [(o.value, true), (o.value, false)]
  {
    FitsStep(f, |f|, layout);
    SomesGrow(f, layout, o);
    OptValsStep(values, f, o);
    if o.Some? {
      PendingAppend(layout, |f| + 1, o.value);
    }
  }

  lemma {:induction false} SomesGrow(f: seq<Option<BinaryTreeNode>>, layout: seq<BinaryTreeNode>, o: Option<BinaryTreeNode>)
    requires |layout| >= 1 && |layout| == 1 + CountSome(f) && Somes(f) == layout[1..]
    ensures var l := if o.Some? then layout + [o.value] else layout;
      |l| == 1 + CountSome(f + [o]) && Somes(f + [o]) == l[1..]
  {
    SomesAppend(f, [o]);
    assert [o][..0] == [];
    if o.Some? {
      assert (layout + [o.value])[1..] == layout[1..] + [o.value];
    }
  }

  lemma {:induction false} OptValsStep(values: seq<Value>, f: seq<Option<BinaryTreeNode>>, o: Option<BinaryTreeNode>)
    requires |f| + 2 <= |values| && OptVals(f) == Holes(values[1..|f| + 1])
    requires o.Some? <==> !values[|f| + 1].VNull?
    requires o.Some? ==> o.value.val == values[|f| + 1]
    ensures OptVals(f + [o]) == Holes(values[1..|f| + 2])
  {
    var v := values[|f| + 1];
    var x: Option<Value> := if o.Some? then Some(o.value.val) else None;
    assert x == (if v.VNull? then None else Some(v));
    calc {
      OptVals(f + [o]);
      { OptValsAppend(f, o); }
      OptVals(f) + [x];
      Holes(values[1..|f| + 1]) + [x];
      { HolesAppend(values[1..|f| + 1], v); }
      Holes(values[1..|f| + 1] + [v]);
      { assert values[1..|f| + 1] + [v] == values[1..|f| + 2]; }
      Holes(values[1..|f| + 2]);
    }
  }

  lemma {:induction false} OptValsAppend(f: seq<Option<BinaryTreeNode>>, o: Option<BinaryTreeNode>)
    ensures OptVals(f + [o]) == OptVals(f) + [if o.Some? then Some(o.value.val) else None]
  {
    assert (f + [o])[..|f|] == f;
  }

  lemma {:induction false} FitsStep(f: seq<Option<BinaryTreeNode>>, t: nat, layout: seq<BinaryTreeNode>)
    requires Fits(f) && |f| == t && |layout| == 1 + CountSome(f) && t < 2 * |layout|
    ensures forall o: Option<BinaryTreeNode> :: Fits(f + [o])
  {
    forall o: Option<BinaryTreeNode> ensures Fits(f + [o]) {
      var g := f + [o];
      forall u | 0 <= u < |g| ensures u < 2 * (1 + Before(g, u)) {
        assert g[..u] == f[..u];
        if u < t {
          assert u < 2 * (1 + Before(f, u));
        } else {
          assert f[..u] == f;
        }
      }
    }
  }

  /** An empty queue before value `k` means the values do not fit. */
  lemma {:induction false} NoSlotLeft(values: seq<Value>, f: seq<Option<BinaryTreeNode>>, k: nat)
    requires 1 <= k < |values| && |f| == k - 1
    requires OptVals(f) == Holes(values[1..k])
    requires k - 1 == 2 * (1 + CountSome(f))
    ensures !BinaryFits(values)
  {
    var h := Holes(values[1..]);
    var t := k - 1;
    forall u | 0 <= u < t ensures f[u].Some? <==> h[..t][u].Some? {
      assert values[1..k][u] == values[1..][u];
      assert OptVals(f)[u] == Holes(values[1..k])[u];
    }
    assert SameShape(f, h[..t]);
    SameShapeCount(f, h[..t]);
    assert !(t < 2 * (1 + Before(h, t)));
  }

  lemma {:induction false} FitsSameShapeValues(values: seq<Value>, f: seq<Option<BinaryTreeNode>>)
    requires |values| >= 1 && |f| == |values| - 1 && Fits(f)
    requires OptVals(f) == Holes(values[1..])
    ensures BinaryFits(values)
  {
    var h := Holes(values[1..]);
    forall u | 0 <= u < |f| ensures f[u].Some? <==> h[u].Some? {
      assert OptVals(f)[u] == h[u];
    }
    FitsSameShape(f, h);
  }

  /** The entries of a tree whose slots hold the fillers `f`: the root, the
      fillers, then empty slots. */
  lemma {:induction false} FilledEntries(layout: seq<BinaryTreeNode>, f: seq<Option<BinaryTreeNode>>)
    requires |layout| >= 1 && |f| <= 2 * |layout| && SlotsMatch(layout, f)
    ensures Entries(layout) == [Some(layout[0])] + f + Nones(2 * |layout| - |f|)
  {
    var s := Slots(layout);
    var want := f + Nones(2 * |layout| - |f|);
    forall t | 0 <= t < |s| ensures s[t] == want[t] {
      var i := t / 2;
      assert Row(layout, f, i);
      if t % 2 == 0 {
        assert t == 2 * i && s[t] == SlotF(f, t);
      } else {
        assert t == 2 * i + 1 && s[t] == SlotF(f, t);
      }
      if t < |f| {
        assert want[t] == f[t];
      } else {
        assert want[t].None?;
      }
    }
  }

  /** The tree built by `from_list` is a tree. */
  lemma {:induction false} BuiltIsTree(layout: seq<BinaryTreeNode>, f: seq<Option<BinaryTreeNode>>)
    requires |layout| >= 1 && Fits(f)
    requires |layout| == 1 + CountSome(f) && Somes(f) == layout[1..]
    requires |f| <= 2 * |layout| && SlotsMatch(layout, f)
    ensures IsTree(layout)
  {
    FilledEntries(layout, f);
    FilledSomes(Entries(layout), layout, f, 2 * |layout| - |f|);
    FitsConnected(layout[0], f, 2 * |layout| - |f|);
  }

  /** The present entries of the root, the fillers and empty slots are the
      root and the present fillers. */
  lemma {:induction false} FilledSomes<T>(e: seq<Option<T>>, layout: seq<T>, f: seq<Option<T>>, n: nat)
    requires |layout| >= 1 && Somes(f) == layout[1..]
    requires e == [Some(layout[0])] + f + Nones(n)
    ensures Somes(e) == layout
  {
    var r1 := [Some(layout[0])];
    assert Somes(r1) == [layout[0]] by {
      assert r1[..0] == [];
    }
    SomesAppend(r1, f);
    SomesAppend(r1 + f, Nones(n));
    NonesCount<T>(n);
    assert [layout[0]] + layout[1..] == layout;
  }

  /** The level order of a tree whose slots hold the fillers `f`: the root's
      value, the fillers' values, then `None`s. */
  lemma {:induction false} FilledValues(layout: seq<BinaryTreeNode>, f: seq<Option<BinaryTreeNode>>)
    requires |layout| >= 1
    requires |f| <= 2 * |layout| && SlotsMatch(layout, f)
    ensures var vs := LevelOrderVals(layout);
      && vs[0] == layout[0].val
      && (forall t :: 0 <= t < |f| ==> vs[t + 1] == ValOf(f[t]))
      && (forall u :: 1 + |f| <= u < |vs| ==> vs[u] == VNull)
  {
    FilledEntries(layout, f);
  }

  /** The level order of the tree built by `from_list` is its input padded
      with `None`s. */
  lemma {:induction false} BuiltLevelOrder(layout: seq<BinaryTreeNode>, f: seq<Option<BinaryTreeNode>>, values: seq<Value>)
    requires |values| >= 1 && |f| == |values| - 1
    requires |layout| >= 1 && layout[0].val == values[0]
    requires |f| <= 2 * |layout| && SlotsMatch(layout, f)
    requires OptVals(f) == Holes(values[1..])
    ensures LevelOrderVals(layout) == values + Nulls(1 + 2 * |layout| - |values|)
  {
    FilledValues(layout, f);
    var vs := LevelOrderVals(layout);
    var want := values + Nulls(1 + 2 * |layout| - |values|);
    forall i | 0 <= i < |vs| ensures vs[i] == want[i] {
      if 1 <= i < |values| {
        assert vs[i] == ValOf(f[i - 1]);
        assert values[1..][i - 1] == values[i];
        assert OptVals(f)[i - 1] == Holes(values[1..])[i - 1];
      }
    }
  }

  /** Building a tree with `from_list` and listing it with `to_list` gives
      back the list read, without its trailing `None`s; a list `from_list`
      refuses gives no tree. */
  method RoundTrip(values: seq<Value>) returns (r: Result<seq<Value>>)
    ensures r.Ok? <==> BinaryFits(values)
    ensures r.Ok? ==> r.value == TrimNulls(values)
    ensures r.Err? ==> r.error == IndexError
  {
    var root, layout := BinaryTreeNode.FromList(values);
    if root.Err? {
      return Err(root.error);
    }
    if root.value == null {
      return Ok([]);
    }
    Listed(values, root.value, layout);
    var out := root.value.ToList(Entries(layout));
    r := Ok(out);
  }

  /** What `to_list` returns for the tree decoded from `values` is `values`
      trimmed. */
  lemma {:induction false} Listed(values: seq<Value>, root: BinaryTreeNode, layout: seq<BinaryTreeNode>)
    requires DecodedAs(values, root, layout)
    ensures IsLevelOrder(root, Entries(layout))
    ensures TrimNulls(EntryVals(Entries(layout))) == TrimNulls(values)
  {
    TreeLevelOrder(layout);
    TrimNullsPadded(values, 1 + 2 * |layout| - |values|);
  }
}
