/**
 * The node helpers of the legacy harness, `utils/list_node.py` and
 * `utils/tree_node.py`. Their `ListNode` and `TreeNode` have the same fields
 * as the `ListNode` and `BinaryTreeNode` classes of the current codecs, so
 * the heap classes of `ListNodes` and `BinaryTreeNodes` stand for them. The
 * helpers differ from the current codecs in three ways: a new node holds `0`
 * by default, an exhausted slot queue blocks (`Queue.get`) instead of
 * raising, and the tree listing trims every trailing falsy value, not only
 * `None`.
 */
module LegacyNodes {
  import opened Wrappers
  import opened Values
  import opened LevelOrder
  import opened ListNodes
  import opened BinaryTreeNodes

  /** `ListNode()`: a legacy list node holds `0` unless told otherwise. */
  method NewListNode() returns (n: ListNode)
    ensures fresh(n) && n.val == VInt(0) && n.next == null
  {
    n := new ListNode(VInt(0));
  }

  /** `TreeNode()`: a legacy tree node holds `0` unless told otherwise. */
  method NewTreeNode() returns (n: BinaryTreeNode)
    ensures fresh(n) && n.val == VInt(0) && n.left == null && n.right == null
  {
    n := new BinaryTreeNode(VInt(0));
  }

  /** `values or []`: `None` stands for no list. */
  function OrEmpty(values: Option<seq<Value>>): (vs: seq<Value>)
    ensures values.Some? ==> vs == values.value
    ensures values.None? ==> vs == []
  {
    if values.Some? then values.value else []
  }

  // ---------------------------------------------------------------------------
  // list_to_linked_list, linked_list_to_list

  /** `list_to_linked_list(values)`: a fresh chain holding the values in
      order behind a dummy head, and no node for `None` or an empty list. */
  method ListToLinkedList(values: Option<seq<Value>>) returns (head: ListNode?, ghost nodes: seq<ListNode>)
    ensures IsChain(head, nodes) && Vals(nodes) == OrEmpty(values)
    ensures head == null <==> OrEmpty(values) == []
    ensures forall i :: 0 <= i < |nodes| ==> fresh(nodes[i])
  {
    head, nodes := ListNode.FromList(OrEmpty(values));
  }

  /** `linked_list_to_list(head)`: the values from `head` to the end of its
      chain; `None` lists as `[]`. A node is always truthy, so the walk stops
      only at `None`. */
  method LinkedListToList(head: ListNode?, ghost nodes: seq<ListNode>) returns (values: seq<Value>)
    requires IsChain(head, nodes)
    ensures values == Vals(nodes)
    ensures head == null ==> values == []
  {
    values := [];
    var node := head;
    var i := 0;
    while node != null
      invariant 0 <= i <= |nodes|
      invariant node == (if i < |nodes| then nodes[i] else null)
      invariant values == Vals(nodes[..i])
      decreases |nodes| - i
    {
      values := values + [node.val];
      assert nodes[..i + 1] == nodes[..i] + [nodes[i]];
      ValsAppend(nodes[..i], [nodes[i]]);
      node := node.next;
      i := i + 1;
    }
    assert nodes[..i] == nodes;
  }

  /** A list turned into a chain and back is the list itself, for every
      list, the empty one included. */
  method ListRoundTrip(values: seq<Value>) returns (out: seq<Value>)
    ensures out == values
  {
    var head, nodes := ListToLinkedList(Some(values));
    out := LinkedListToList(head, nodes);
  }

  // ---------------------------------------------------------------------------
  // list_to_binary_tree, binary_tree_to_list

  /** `list_to_binary_tree(values)`: no tree for `None` or an empty list;
      otherwise the root holds `values[0]` and each later value takes the
      oldest open slot, a `None` leaving it empty. When the slots run out
      with values left, `Queue.get()` waits for ever: `Blocked`. */
  method ListToBinaryTree(values: Option<seq<Value>>) returns (r: Result<BinaryTreeNode?>, ghost layout: seq<BinaryTreeNode>)
    ensures OrEmpty(values) == [] ==> r == Ok(null)
    ensures r.Ok? <==> BinaryFits(OrEmpty(values))
    ensures r.Err? ==> r.error == Blocked
    ensures r.Ok? && OrEmpty(values) != [] ==> r.value != null && DecodedAs(OrEmpty(values), r.value, layout)
  {
    var vs := OrEmpty(values);
    var built;
    built, layout := BinaryTreeNode.FromList(vs);
    if built.Err? {
      return Err(Blocked), layout;
    }
    r := Ok(built.value);
  }

  /** `binary_tree_to_list(root)`: the breadth-first values with `None` for
      each missing child (a lone `None` for no tree), after which every
      trailing falsy value is popped: `None`, but also `0`, `False`, `""`
      and `[]`. The tree is described by its breadth-first entries `e`. */
  method BinaryTreeToList(root: BinaryTreeNode?, ghost e: seq<Option<BinaryTreeNode>>) returns (values: seq<Value>)
    requires root != null ==> IsLevelOrder(root, e)
    ensures values == TrimFalsy(if root == null then [VNull] else EntryVals(e))
    ensures root == null ==> values == []
    ensures values == [] || !Falsy(values[|values| - 1])
  {
    ghost var full: seq<Value>;
    if root == null {
      values := [VNull];
      full := values;
    } else {
      values := root.ToList(e);
      full := EntryVals(e);
      TrimFalsyAfterNulls(full);
    }
    while |values| > 0 && Falsy(values[|values| - 1])
      invariant TrimFalsy(values) == TrimFalsy(full)
      decreases |values|
    {
      values := values[..|values| - 1];
    }
  }

  /** A list turned into a tree and back loses every trailing falsy value;
      a list with more values than slots blocks. */
  method TreeRoundTrip(values: seq<Value>) returns (r: Result<seq<Value>>)
    ensures r.Ok? <==> BinaryFits(values)
    ensures r.Ok? ==> r.value == TrimFalsy(values)
    ensures r.Err? ==> r.error == Blocked
  {
    var root, layout := ListToBinaryTree(Some(values));
    if root.Err? {
      return Err(root.error);
    }
    if root.value == null {
      var out := BinaryTreeToList(null, []);
      return Ok(out);
    }
    Listed(values, root.value, layout);
    ghost var e := Entries(layout);
    var out := BinaryTreeToList(root.value, e);
    TrimFalsyAfterNulls(EntryVals(e));
    TrimFalsyAfterNulls(values);
    r := Ok(out);
  }

  /** The legacy listing loses the last value of a tree whenever it is
      falsy but not `None`, such as a leaf holding `0`, where the current
      codec keeps it: the two round trips differ on every such list. */
  lemma {:induction false} FalsyLeafLost(values: seq<Value>)
    requires values != [] && Falsy(values[|values| - 1]) && !values[|values| - 1].VNull?
    ensures TrimNulls(values) == values
    ensures |TrimFalsy(values)| < |values|
  {
    TrimFalsyShape(values[..|values| - 1]);
  }

  /** `[1, 0]`, a root with a left child `0`, fits a tree, and comes back
      from the legacy round trip as `[1]`. */
  lemma {:induction false} TrailingZeroDropped()
    ensures BinaryFits([VInt(1), VInt(0)])
    ensures TrimFalsy([VInt(1), VInt(0)]) == [VInt(1)]
    ensures TrimNulls([VInt(1), VInt(0)]) == [VInt(1), VInt(0)]
  {
    var vs := [VInt(1), VInt(0)];
    assert vs[..1] == [VInt(1)];
    assert Holes(vs[1..]) == [Some(VInt(0))];
    assert Before(Holes(vs[1..]), 0) == 0;
  }
}
