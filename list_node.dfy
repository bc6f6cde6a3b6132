/**
 * The singly linked list codec of `src/nodes/list_node.py`: `from_list` builds
 * a chain behind a dummy head, `to_list` walks `next` links until `None`.
 *
 * A chain is described by the ghost sequence of its nodes, head first, instead
 * of a footprint set; a cyclic structure (on which `to_list` never returns) has
 * no such description and is outside the model.
 */
module ListNodes {
  import opened Values

  class ListNode {
    var val: Value
    var next: ListNode?

    /** `ListNode(val=None, next=None)`. */
    constructor (val: Value := VNull, next: ListNode? := null)
      ensures this.val == val && this.next == next
    {
      this.val := val;
      this.next := next;
    }

    /** Python's `to_list`: the values from this node to the end of its chain. */
    method ToList(ghost nodes: seq<ListNode>) returns (values: seq<Value>)
      requires IsChain(this, nodes)
      ensures |values| == |nodes|
      ensures values == Vals(nodes)
    {
      values := [];
      var node: ListNode? := this;
      var i := 0;
      while node != null
        invariant 0 <= i <= |nodes|
        invariant node == (if i < |nodes| then nodes[i] else null)
        invariant values == Vals(nodes[..i])
        decreases |nodes| - i
      {
        values := values + [node.val];
        assert nodes[..i + 1] == nodes[..i] + [nodes[i]];
        ValsAppend(nodes[..i], [nodes[i]]);
        node := node.next;
        i := i + 1;
      }
      assert nodes[..i] == nodes;
    }

    /** Python's `from_list`: a fresh chain holding `values` in order, `None`s
        included, or no node at all for an empty list. */
    static method FromList(values: seq<Value>) returns (head: ListNode?, ghost nodes: seq<ListNode>)
      ensures IsChain(head, nodes)
      ensures Vals(nodes) == values
      ensures head == null <==> values == []
      ensures forall i :: 0 <= i < |nodes| ==> fresh(nodes[i])
      ensures forall i, j :: 0 <= i < j < |nodes| ==> nodes[i] != nodes[j]
    {
      var dummy := new ListNode();
      var current := dummy;
      nodes := [];
      var k := 0;
      while k < |values|
        invariant 0 <= k <= |values| && |nodes| == k
        invariant current == (if k == 0 then dummy else nodes[k - 1])
        invariant current.next == null
        invariant dummy.next == (if k == 0 then null else nodes[0])
        invariant forall i :: 0 <= i < k - 1 ==> nodes[i].next == nodes[i + 1]
        invariant forall i :: 0 <= i < k ==> nodes[i].val == values[i] && fresh(nodes[i]) && nodes[i] != dummy
        invariant forall i, j :: 0 <= i < j < k ==> nodes[i] != nodes[j]
      {
        var node := new ListNode(values[k]);
        current.next := node;
        current := node;
        nodes := nodes + [node];
        k := k + 1;
      }
      head := dummy.next;
      ValsAt(nodes, values);
    }
  }

  /** `nodes` is the chain that starts at `head`: each node links to the next
      and the last one ends the list. */
  ghost predicate IsChain(head: ListNode?, nodes: seq<ListNode>)
    reads nodes
  {
    && head == (if nodes == [] then null else nodes[0])
    && (forall i :: 0 <= i < |nodes| - 1 ==> nodes[i].next == nodes[i + 1])
    && (nodes != [] ==> nodes[|nodes| - 1].next == null)
  }

  /** The values held along a chain. */
  ghost function Vals(nodes: seq<ListNode>): (vs: seq<Value>)
    reads nodes
    ensures |vs| == |nodes|
  {
    if nodes == [] then [] else Vals(nodes[..|nodes| - 1]) + [nodes[|nodes| - 1].val]
  }

  lemma {:induction false} ValsAppend(a: seq<ListNode>, b: seq<ListNode>)
    requires |b| == 1
    ensures Vals(a + b) == Vals(a) + [b[0].val]
  {
    assert (a + b)[..|a + b| - 1] == a;
  }

  lemma {:induction false} ValsAt(nodes: seq<ListNode>, values: seq<Value>)
    requires |nodes| == |values| && forall i :: 0 <= i < |nodes| ==> nodes[i].val == values[i]
    ensures Vals(nodes) == values
  {
    if nodes != [] {
      ValsAt(nodes[..|nodes| - 1], values[..|values| - 1]);
    }
  }

  /** Decoding and re-encoding a list gives it back unchanged, with no
      trimming of `None`s; an empty list decodes to no node, which the
      harness turns back into `[]`. */
  method RoundTrip(values: seq<Value>) returns (out: seq<Value>)
    ensures out == values
  {
    var head, nodes := ListNode.FromList(values);
    if head == null {
      return [];
    }
    out := head.ToList(nodes);
  }
}
