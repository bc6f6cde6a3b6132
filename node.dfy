/**
 * The `Node` base class of the three codecs: a node prints as its `to_list`,
 * two nodes compare by their `to_list`, and the harness meets a codec only
 * through `from_list` followed by `to_list`. This module states that
 * composition on values, once per codec, and proves that the heap classes of
 * the codec modules compute exactly it.
 */
module Nodes {
  import opened Wrappers
  import opened Values
  import opened PyStr
  import opened LevelOrder
  import ListNodes
  import BinaryTreeNodes
  import NTreeNodes

  /** The class's `__name__`. */
  function ClassName(k: NodeKind): (name: string)
    ensures |name| >= 8
  {
    match k
    case ListNodeKind => "ListNode"
    case BinaryTreeKind => "BinaryTreeNode"
    case NTreeKind => "NTreeNode"
  }

  /** The class's `ALT_NAME`, the name LeetCode gives the same structure. */
  function AltName(k: NodeKind): (name: string)
    ensures |name| >= 4
  {
    match k
    case ListNodeKind => "ListNode"
    case BinaryTreeKind => "TreeNode"
    case NTreeKind => "Node"
  }

  /** What `cls.from_list(v)` builds, seen through `to_list`: `None` for no
      structure, else the list the structure's `to_list` returns.
      A falsy `v` gives no structure. A list node iterates `v`; the trees
      index `v[0]` and walk `v[1:]`, and fail when a value finds no slot
      (binary tree) or no parent (n-ary tree). */
  function Decode(k: NodeKind, v: Value): (r: Result<Option<seq<Value>>>)
    ensures Falsy(v) ==> r == Ok(None)
    ensures r.Ok? && r.value.Some? ==> !Falsy(v)
  {
    if Falsy(v) then Ok(None)
    else
      match k
      case ListNodeKind =>
        var xs :- Iterate(v);
        Ok(Some(xs))
      case BinaryTreeKind =>
        var xs :- Positional(v);
        if BinaryFits(xs) then Ok(Some(TrimNulls(xs))) else Err(IndexError)
      case NTreeKind =>
        var xs :- Positional(v);
        if NTreeNodes.NTreeFits(xs) then Ok(Some(TrimNulls(xs)))
        else Err(if xs[1].VNull? then IndexError else AttributeError)
  }

  /** `cls.from_list(v)` followed by `to_list()` on the heap classes: the
      structure built and listed again is the one `Decode` describes. */
  method Rebuild(k: NodeKind, v: Value) returns (r: Result<Option<seq<Value>>>)
    ensures r == Decode(k, v)
  {
    if Falsy(v) {
      return Ok(None);
    }
    match k {
      case ListNodeKind =>
        var xs :- Iterate(v);
        var out := ListNodes.RoundTrip(xs);
        r := Ok(Some(out));
      case BinaryTreeKind =>
        var xs :- Positional(v);
        var out :- BinaryTreeNodes.RoundTrip(xs);
        r := Ok(Some(out));
      case NTreeKind =>
        var xs :- Positional(v);
        var out :- NTreeNodes.RoundTrip(xs);
        r := Ok(Some(out));
    }
  }

  /** `cls.from_list(v) or []`, the marshalled form of an argument: the node
      built, or an empty list when there is none. */
  function Marshal(k: NodeKind, v: Value): (r: Result<Value>)
  {
    var d :- Decode(k, v);
    Ok(if d.Some? then VNode(k, d.value) else VList([]))
  }

  /** A marshalled value is a node of the class asked for whose encoding
      `from_list` produced, or `[]` exactly when `from_list` built nothing. */
  lemma {:induction false} MarshalShape(k: NodeKind, v: Value)
    requires Marshal(k, v).Ok?
    ensures Falsy(v) ==> Marshal(k, v).value == VList([])
    ensures Marshal(k, v).value.VNode? <==> Decode(k, v).value.Some?
    ensures Marshal(k, v).value.VNode? ==> Marshal(k, v).value == VNode(k, Decode(k, v).value.value)
  {
  }

  /** The tree codecs drop trailing `None`s, so their encodings never end
      with one, while the list codec keeps every value of a non-empty
      sequence. */
  lemma {:induction false} DecodeEnds(k: NodeKind, v: Value)
    requires Decode(k, v).Ok? && Decode(k, v).value.Some?
    ensures k != ListNodeKind ==> var e := Decode(k, v).value.value; e == [] || !e[|e| - 1].VNull?
    ensures k == ListNodeKind ==> Decode(k, v).value.value == Iterate(v).value && Decode(k, v).value.value != []
  {
    if k != ListNodeKind {
      TrimNullsShape(Positional(v).value);
    }
  }

  /** `Node.__repr__`: a node prints as its `to_list`. */
  lemma {:induction false} NodeRepr(k: NodeKind, xs: seq<Value>)
    ensures Repr(VNode(k, xs)) == Repr(VList(xs))
    ensures Str(VNode(k, xs)) == Str(VList(xs))
  {
    ReprItemsOwner(VNode(k, xs), VList(xs), xs);
  }

  /** The joined reprs do not depend on the container they belong to. */
  lemma {:induction false} ReprItemsOwner(a: Value, b: Value, xs: seq<Value>)
    requires forall i :: 0 <= i < |xs| ==> xs[i] < a && xs[i] < b
    ensures ReprItems(a, xs) == ReprItems(b, xs)
    decreases |xs|
  {
    if |xs| > 1 {
      ReprItemsOwner(a, b, xs[1..]);
    }
  }
}
