/**
 * The n-ary tree codec of `src/nodes/n_tree_node.py`: the root's value and a
 * `None`, then, for every node in breadth-first order, the values of its
 * children followed by a `None`; trailing `None`s are dropped.
 *
 * A tree is described by the ghost sequence `layout` of its nodes in
 * breadth-first order and the ghost sequence `cs` of their child counts.
 * Node `t`'s children are the nodes from `Start(cs, t)` up to
 * `Start(cs, t + 1)`: each node's children follow the root and the children
 * of every node before it.
 */
module NTreeNodes {
  import opened Values
  import opened LevelOrder

  class NTreeNode {
    const val: Value
    var children: seq<NTreeNode>

    /** `NTreeNode(val=None, children=None)`; an absent child list becomes
        an empty one. */
    constructor (val: Value := VNull, children: seq<NTreeNode> := [])
      ensures this.val == val && this.children == children
    {
      this.val := val;
      this.children := children;
    }

    /** Python's `to_list`: `[val, None]`, then the children's values and a
        `None` for every node taken from the breadth-first queue, trailing
        `None`s removed. */
    method ToList(ghost layout: seq<NTreeNode>, ghost cs: seq<nat>) returns (values: seq<Value>)
      requires IsNTree(this, layout, cs)
      ensures values == TrimNulls(Emitted(Vals(layout), cs, |cs|))
    {
      ghost var vs := Vals(layout);
      values := [val, VNull];
      var queue := [this];
      ghost var p := 0;
      while |queue| > 0
        invariant p <= |cs| && queue == layout[p..Start(cs, p)]
        invariant values == Emitted(vs, cs, p)
        decreases |cs| - p
      {
        BfsNext(this, layout, cs, p);
        var node := queue[0];
        queue := queue[1..];
        var kids := node.children;
        values, queue := Enqueue(kids, values, queue);
        values := values + [VNull];
        p := p + 1;
      }
      Drained(this, layout, cs, p);
      ghost var full := values;
      while |values| > 0 && values[|values| - 1].VNull?
        invariant TrimNulls(values) == TrimNulls(full)
        decreases |values|
      {
        values := values[..|values| - 1];
      }
    }

    /** `node.children.append(child)` for the current parent `node` of
        `from_list`: the fresh leaf `child` becomes its last child. */
    static method Adopt(node: NTreeNode, child: NTreeNode, ghost layout: seq<NTreeNode>, ghost done: seq<nat>)
      requires |done| < |layout| && Start(done, |done|) <= |layout| && node == layout[|done|]
      requires Linked(layout, done) && Distinct(layout) && child !in layout && child.children == []
      modifies node
      ensures Linked(layout + [child], done)
    {
      assert Row(layout, done, |done|);
      node.children := node.children + [child];
      forall t | 0 <= t < |layout| + 1 ensures Row(layout + [child], done, t) {
        KidsGrow(layout, done, child, t);
        if t < |layout| && t != |done| {
          assert old(Row(layout, done, t));
          assert layout[t] != node;
        }
      }
    }

    /** One branch of a `from_list` turn: reading a `None` while the queue is
        not empty makes its head the current parent. */
    static method Take(node: NTreeNode?, queue: seq<NTreeNode>, ghost values: seq<Value>, ghost k: nat, ghost root: NTreeNode, ghost layout: seq<NTreeNode>, ghost done: seq<nat>)
      returns (node': NTreeNode, queue': seq<NTreeNode>, ghost done': seq<nat>)
      requires k < |values| && values[k].VNull? && |queue| > 0
      requires Decoding(values, k, root, node, queue, layout, done)
      requires Linked(layout, done)
      ensures Decoding(values, k + 1, root, node', queue', layout, done')
      ensures Linked(layout, done')
    {
      TakeNext(values, k, root, node, queue, layout, done);
      done' := Next(node, done, layout);
      node' := queue[0];
      queue' := queue[1..];
    }

    /** The other branch of a `from_list` turn: a new node holding `value`
        becomes the last child of the current parent `node` and joins the
        queue. */
    static method Append(node: NTreeNode, value: Value, queue: seq<NTreeNode>, ghost values: seq<Value>, ghost k: nat, ghost root: NTreeNode, ghost layout: seq<NTreeNode>, ghost done: seq<nat>)
      returns (queue': seq<NTreeNode>, ghost layout': seq<NTreeNode>)
      requires k < |values| && value == values[k] && !value.VNull?
      requires Decoding(values, k, root, node, queue, layout, done)
      requires Linked(layout, done)
      modifies node
      ensures Decoding(values, k + 1, root, node, queue', layout', done)
      ensures Linked(layout', done)
      ensures forall n :: n in layout' ==> n in layout || fresh(n)
    {
      LaidQueue(values[0], root, node, queue, layout, done);
      CountedStep(values, k, Taken(node, done), |layout|);
      var child := new NTreeNode(value);
      Adopt(node, child, layout, done);
      LaidChild(values[0], root, node, queue, layout, done, child);
      ReadChild(values, k, node, layout, done, child);
      queue' := queue + [child];
      layout' := layout + [child];
    }

    /** One turn of the `from_list` loop, reading `values[k]`. */
    static method Turn(node: NTreeNode?, queue: seq<NTreeNode>, values: seq<Value>, k: nat, ghost root: NTreeNode, ghost layout: seq<NTreeNode>, ghost done: seq<nat>)
      returns (r: Result<()>, node': NTreeNode?, queue': seq<NTreeNode>, ghost layout': seq<NTreeNode>, ghost done': seq<nat>)
      requires k < |values| && Decoding(values, k, root, node, queue, layout, done) && Linked(layout, done)
      modifies node
      ensures r.Ok? ==> Decoding(values, k + 1, root, node', queue', layout', done') && Linked(layout', done')
      ensures r.Ok? ==> (forall n :: n in layout' ==> n in layout || fresh(n)) && (node' == null || node' in layout')
      ensures r.Err? ==> !NTreeFits(values) && |values| >= 2 && r.error == (if values[1].VNull? then IndexError else AttributeError)
    {
      LaidQueue(values[0], root, node, queue, layout, done);
      node', queue', layout', done' := node, queue, layout, done;
      var value := values[k];
      if value.VNull? {
        if |queue| == 0 {
          CountedFail(values, k, Taken(node, done), |layout|);
          return Err(IndexError), node', queue', layout', done';
        }
        node', queue', done' := Take(node, queue, values, k, root, layout, done);
      } else {
        if node == null {
          CountedFail(values, k, Taken(node, done), |layout|);
          return Err(AttributeError), node', queue', layout', done';
        }
        queue', layout' := Append(node, value, queue, values, k, root, layout, done);
      }
      LaidQueue(values[0], root, node', queue', layout', done');
      r := Ok(());
    }

    /** Python's `from_list`: no tree for an empty list; otherwise the root
        holds `values[0]`, each `None` after it makes the next queued node the
        current parent, and every other value becomes a new last child of the
        current parent and joins the queue. A value before the first `None`
        has no parent (the `AttributeError` of `None.children`), and a `None`
        with the queue empty is the `IndexError` of `popleft`. */
    static method FromList(values: seq<Value>) returns (r: Result<NTreeNode?>, ghost layout: seq<NTreeNode>, ghost cs: seq<nat>)
      ensures values == [] ==> r == Ok(null)
      ensures r.Ok? <==> NTreeFits(values)
      ensures r.Err? ==> |values| >= 2 && r.error == (if values[1].VNull? then IndexError else AttributeError)
      ensures r.Ok? && values != [] ==> r.value != null && DecodedAs(values, r.value, layout, cs)
    {
      if values == [] {
        return Ok(null), [], [];
      }
      var root := new NTreeNode(values[0]);
      var queue := [root];
      var node: NTreeNode? := null;
      layout := [root];
      ghost var done: seq<nat> := [];
      var k := 1;
      assert Row(layout, done, 0);
      while k < |values|
        invariant Decoding(values, k, root, node, queue, layout, done)
        invariant Linked(layout, done)
        invariant forall n :: n in layout ==> fresh(n)
        invariant node == null || fresh(node)
      {
        var turn;
        turn, node, queue, layout, done := Turn(node, queue, values, k, root, layout, done);
        if turn.Err? {
          return Err(turn.error), layout, [];
        }
        k := k + 1;
      }
      Finished(values, root, node, queue, layout, done);
      cs := Finish(done, layout);
      r := Ok(root);
    }
  }

  /** Building a tree with `from_list` and listing it with `to_list` gives
      back the list read, without its trailing `None`s; a list `from_list`
      refuses gives no tree. */
  method RoundTrip(values: seq<Value>) returns (r: Result<seq<Value>>)
    ensures r.Ok? <==> NTreeFits(values)
    ensures r.Ok? ==> r.value == TrimNulls(values)
    ensures r.Err? ==> |values| >= 2 && r.error == (if values[1].VNull? then IndexError else AttributeError)
  {
    var root, layout, cs := NTreeNode.FromList(values);
    if root.Err? {
      return Err(root.error);
    }
    if root.value == null {
      return Ok([]);
    }
    Listed(values, root.value, layout, cs);
    var out := root.value.ToList(layout, cs);
    r := Ok(out);
  }

  /** What `to_list` returns for the tree decoded from `values`, once
      trimmed, is `values` trimmed. */
  lemma {:induction false} Listed(values: seq<Value>, root: NTreeNode, layout: seq<NTreeNode>, cs: seq<nat>)
    requires DecodedAs(values, root, layout, cs)
    ensures IsNTree(root, layout, cs)
    ensures TrimNulls(Emitted(Vals(layout), cs, |cs|)) == TrimNulls(values)
  {
    var n := 1 + |layout| - NullCount(values[1..]);
    assert Emitted(Vals(layout), cs, |cs|) == values + Nulls(n);
    TrimNullsPadded(values, n);
  }

  /** The inner loop of `to_list`: every child's value is appended to the
      list and the child to the queue, in order. */
  method Enqueue(kids: seq<NTreeNode>, values: seq<Value>, queue: seq<NTreeNode>) returns (values': seq<Value>, queue': seq<NTreeNode>)
    ensures values' == values + Vals(kids) && queue' == queue + kids
  {
    values', queue' := values, queue;
    var j := 0;
    while j < |kids|
      invariant j <= |kids|
      invariant values' == values + Vals(kids[..j]) && queue' == queue + kids[..j]
    {
      assert kids[..j + 1][..j] == kids[..j];
      values' := values' + [kids[j].val];
      queue' := queue' + [kids[j]];
      j := j + 1;
    }
    assert kids[..j] == kids;
  }

  /** The values of some nodes, in order. */
  ghost function Vals(nodes: seq<NTreeNode>): (vs: seq<Value>)
    ensures |vs| == |nodes| && forall t :: 0 <= t < |nodes| ==> vs[t] == nodes[t].val
  {
    if nodes == [] then [] else Vals(nodes[..|nodes| - 1]) + [nodes[|nodes| - 1].val]
  }

  /** Where the children of node `t` begin in the breadth-first order: after
      the root and the children of the `t` nodes before it. */
  function Start(cs: seq<nat>, t: nat): (s: nat)
    requires t <= |cs|
    ensures s >= 1
  {
    if t == 0 then 1 else Start(cs, t - 1) + cs[t - 1]
  }

  /** Child counts that describe a tree: every node but the root is the
      child of an earlier node, and the children of the last node end the
      order. */
  predicate NShape(cs: seq<nat>) {
    && |cs| >= 1
    && Start(cs, |cs|) == |cs|
    && forall t :: 0 <= t < |cs| ==> t < Start(cs, t) <= |cs|
  }

  /** `layout` lists, in breadth-first order, the nodes of the tree rooted at
      `root`, node `t` having the `cs[t]` children that `cs` places for it. */
  ghost predicate IsNTree(root: NTreeNode, layout: seq<NTreeNode>, cs: seq<nat>)
    reads layout
  {
    && |layout| == |cs| && NShape(cs) && layout[0] == root
    && forall t :: 0 <= t < |cs| ==> layout[t].children == layout[Start(cs, t)..Start(cs, t + 1)]
  }

  /** The list `to_list` has built, before trimming, once the first `p` nodes
      of the breadth-first order have left the queue. */
  function Emitted(vs: seq<Value>, cs: seq<nat>, p: nat): (r: seq<Value>)
    requires 1 <= |vs| && p <= |cs| && Start(cs, p) <= |vs|
    ensures |r| == Start(cs, p) + p + 1
  {
    if p == 0 then [vs[0], VNull]
    else Emitted(vs, cs, p - 1) + vs[Start(cs, p - 1)..Start(cs, p)] + [VNull]
  }

  /** One turn of the `to_list` queue: while it is not empty, the node taken
      is `layout[p]`, and its children are the next `cs[p]` nodes of the
      order, so queuing them and listing their values gives the state after
      `p + 1` nodes. */
  lemma {:induction false} BfsNext(root: NTreeNode, layout: seq<NTreeNode>, cs: seq<nat>, p: nat)
    requires IsNTree(root, layout, cs) && p <= |cs| && layout[p..Start(cs, p)] != []
    ensures p < |cs| && layout[p..Start(cs, p)][0] == layout[p]
    ensures Start(cs, p + 1) <= |layout|
    ensures layout[p..Start(cs, p)][1..] + layout[p].children == layout[p + 1..Start(cs, p + 1)]
    ensures Emitted(Vals(layout), cs, p) + Vals(layout[p].children) + [VNull] == Emitted(Vals(layout), cs, p + 1)
  {
    assert layout[p].children == layout[Start(cs, p)..Start(cs, p + 1)];
    ValsSlice(layout, Start(cs, p), Start(cs, p + 1));
  }

  lemma {:induction false} ValsSlice(nodes: seq<NTreeNode>, a: nat, b: nat)
    requires a <= b <= |nodes|
    ensures Vals(nodes[a..b]) == Vals(nodes)[a..b]
  {
  }

  /** The queue of `to_list` runs out only once every node has left it. */
  lemma {:induction false} Drained(root: NTreeNode, layout: seq<NTreeNode>, cs: seq<nat>, p: nat)
    requires IsNTree(root, layout, cs) && p <= |cs| && layout[p..Start(cs, p)] == []
    ensures p == |cs|
  {
    assert Start(cs, p) - p == |layout[p..Start(cs, p)]| == 0;
  }

  // ---------------------------------------------------------------------------
  // child counts

  lemma {:induction false} StartMonotone(cs: seq<nat>, a: nat, b: nat)
    requires a <= b <= |cs|
    ensures Start(cs, a) <= Start(cs, b)
    decreases b - a
  {
    if a < b {
      StartMonotone(cs, a, b - 1);
    }
  }

  /** Where a node's children begin depends only on the counts before it. */
  lemma {:induction false} StartPrefix(a: seq<nat>, b: seq<nat>, t: nat)
    requires t <= |a|
    ensures Start(a + b, t) == Start(a, t)
  {
    if t > 0 {
      StartPrefix(a, b, t - 1);
    }
  }

  /** Nodes without children move no later node's children. */
  lemma {:induction false} StartFlat(cs: seq<nat>, q: nat, t: nat)
    requires q <= t <= |cs| && forall i :: q <= i < t ==> cs[i] == 0
    ensures Start(cs, t) == Start(cs, q)
    decreases t - q
  {
    if q < t {
      StartFlat(cs, q, t - 1);
    }
  }

  /** Counts of zero, one per node that never became a parent. */
  function Zeros(n: nat): (z: seq<nat>)
    ensures |z| == n && forall i :: 0 <= i < n ==> z[i] == 0
  {
    seq(n, i => 0)
  }

  // ---------------------------------------------------------------------------
  // the emitted list

  /** The emitted list reads only the values of nodes already placed. */
  lemma {:induction false} EmittedValsPrefix(vs: seq<Value>, ws: seq<Value>, cs: seq<nat>, p: nat)
    requires 1 <= |vs| <= |ws| && vs == ws[..|vs|] && p <= |cs| && Start(cs, p) <= |vs|
    ensures Emitted(ws, cs, p) == Emitted(vs, cs, p)
  {
    if p > 0 {
      StartMonotone(cs, p - 1, p);
      EmittedValsPrefix(vs, ws, cs, p - 1);
      assert ws[Start(cs, p - 1)..Start(cs, p)] == vs[Start(cs, p - 1)..Start(cs, p)];
    }
  }

  /** The emitted list for the first `p` nodes reads only their counts. */
  lemma {:induction false} EmittedCountsPrefix(vs: seq<Value>, a: seq<nat>, b: seq<nat>, p: nat)
    requires 1 <= |vs| && p <= |a| && Start(a, p) <= |vs|
    ensures Start(a + b, p) == Start(a, p)
    ensures Emitted(vs, a + b, p) == Emitted(vs, a, p)
  {
    StartPrefix(a, b, p);
    if p > 0 {
      StartPrefix(a, b, p - 1);
      EmittedCountsPrefix(vs, a, b, p - 1);
    }
  }

  /** A node without children adds just its `None`. */
  lemma {:induction false} EmittedFlat(vs: seq<Value>, cs: seq<nat>, q: nat, i: nat)
    requires 1 <= |vs| && q + i <= |cs| && Start(cs, q) <= |vs| && Start(cs, q + i) <= |vs|
    requires forall t :: q <= t < q + i ==> cs[t] == 0
    ensures Emitted(vs, cs, q + i) == Emitted(vs, cs, q) + Nulls(i)
    decreases i
  {
    if i > 0 {
      StartFlat(cs, q, q + i);
      StartFlat(cs, q, q + i - 1);
      EmittedFlat(vs, cs, q, i - 1);
    }
  }

  // ---------------------------------------------------------------------------
  // the decoder's reading of the list

  /** The number of `None`s in a list. */
  function NullCount(s: seq<Value>): (n: nat)
    ensures n <= |s|
  {
    if s == [] then 0 else NullCount(s[..|s| - 1]) + (if s[|s| - 1].VNull? then 1 else 0)
  }

  /** How many nodes `from_list` has taken from its queue after reading
      `values[..k]`: one per `None` after the root. */
  function Pops(values: seq<Value>, k: nat): nat
    requires 1 <= k <= |values|
  {
    NullCount(values[1..k])
  }

  /** How many nodes `from_list` has created after reading `values[..k]`:
      the root and one per other value that is not `None`. */
  function Made(values: seq<Value>, k: nat): nat
    requires 1 <= k <= |values|
  {
    k - Pops(values, k)
  }

  lemma {:induction false} PopsStep(values: seq<Value>, k: nat)
    requires 1 <= k < |values|
    ensures Pops(values, k + 1) == Pops(values, k) + (if values[k].VNull? then 1 else 0)
  {
    assert values[1..k + 1][..k - 1] == values[1..k];
  }

  /** `from_list` reads `values[j]` without error: a `None` finds a node
      waiting in the queue, and any other value finds a current parent. */
  predicate Legal(values: seq<Value>, j: nat)
    requires 1 <= j < |values|
  {
    if values[j].VNull? then Pops(values, j) < Made(values, j) else Pops(values, j) >= 1
  }

  /** The lists `from_list` decodes without error. */
  predicate NTreeFits(values: seq<Value>) {
    forall j :: 1 <= j < |values| ==> Legal(values, j)
  }

  // ---------------------------------------------------------------------------
  // proof steps of from_list

  /** How many nodes have left the queue while `node` is the current parent
      and the parents before it had the child counts `done`. */
  function Taken(node: NTreeNode?, done: seq<nat>): nat {
    if node == null then 0 else |done| + 1
  }

  /** The counts once the current parent gets another one. */
  function Popped(done: seq<nat>, layout: seq<NTreeNode>): seq<nat>
    requires Start(done, |done|) <= |layout|
  {
    done + [|layout| - Start(done, |done|)]
  }

  /** The counts of a finished decoding: those of the earlier parents, the
      current parent's, and none for every node still queued. */
  function Finish(done: seq<nat>, layout: seq<NTreeNode>): (cs: seq<nat>)
    requires |done| < |layout| && Start(done, |done|) <= |layout|
    ensures |cs| == |layout|
  {
    Popped(done, layout) + Zeros(|layout| - |done| - 1)
  }

  /** The state of the `from_list` loop before it reads `values[k]`. */
  ghost predicate Decoding(values: seq<Value>, k: nat, root: NTreeNode, node: NTreeNode?, queue: seq<NTreeNode>, layout: seq<NTreeNode>, done: seq<nat>) {
    && |values| >= 1
    && Counted(values, k, Taken(node, done), |layout|)
    && Laid(values[0], root, node, queue, layout, done)
    && Read(values, k, node, layout, done)
  }

  /** The counting part of the `from_list` loop before it reads
      `values[k]`: `made` nodes created, one per value read that is not
      `None`, `taken` taken from the queue, one per `None`, and every value
      read without error. */
  predicate Counted(values: seq<Value>, k: nat, taken: nat, made: nat) {
    && 1 <= k <= |values|
    && made == Made(values, k) && taken == Pops(values, k)
    && (forall j :: 1 <= j < k ==> Legal(values, j))
    && (k > 1 ==> values[1].VNull?)
  }

  /** The structural part: the nodes created so far in breadth-first order,
      the parents that have left the queue before the current one, `node`,
      with their child counts `done`, and the queue holding the rest. */
  ghost predicate Laid(v0: Value, root: NTreeNode, node: NTreeNode?, queue: seq<NTreeNode>, layout: seq<NTreeNode>, done: seq<nat>) {
    && |layout| >= 1 && layout[0] == root && root.val == v0 && Distinct(layout)
    && |done| < |layout| && Start(done, |done|) <= |layout|
    && (forall t :: 0 <= t <= |done| ==> t < Start(done, t))
    && queue == layout[Taken(node, done)..]
    && (node == null ==> done == [] && |layout| == 1)
    && (node != null ==> node == layout[|done|])
  }

  /** The reading part: once there is a current parent, the list read so far
      is what `to_list` emits for the parents before it, followed by the
      values of the current parent's children. */
  ghost predicate Read(values: seq<Value>, k: nat, node: NTreeNode?, layout: seq<NTreeNode>, done: seq<nat>) {
    && 1 <= k <= |values| && |layout| >= 1 && Start(done, |done|) <= |layout|
    && (node == null ==> k == 1)
    && (node != null ==> values[..k] == Emitted(Vals(layout), done, |done|) + Vals(layout)[Start(done, |done|)..])
  }

  /** The children `from_list` has given node `t` so far: all of them for a
      parent before the current one, the nodes created since the current one
      was taken, and none for a node still queued. */
  ghost function Kids(layout: seq<NTreeNode>, done: seq<nat>, t: nat): seq<NTreeNode>
    requires t < |layout| && Start(done, |done|) <= |layout|
  {
    if t < |done| then
      StartMonotone(done, t + 1, |done|);
      layout[Start(done, t)..Start(done, t + 1)]
    else if t == |done| then layout[Start(done, |done|)..]
    else []
  }

  ghost predicate Row(layout: seq<NTreeNode>, done: seq<nat>, t: nat)
    requires t < |layout| && Start(done, |done|) <= |layout|
    reads layout[t]
  {
    layout[t].children == Kids(layout, done, t)
  }

  /** Every node created so far has the children `from_list` gave it. */
  ghost predicate Linked(layout: seq<NTreeNode>, done: seq<nat>)
    requires Start(done, |done|) <= |layout|
    reads layout
  {
    forall t :: 0 <= t < |layout| ==> Row(layout, done, t)
  }

  lemma {:induction false} ValsAppend(nodes: seq<NTreeNode>, n: NTreeNode)
    ensures Vals(nodes + [n]) == Vals(nodes) + [n.val]
  {
    assert (nodes + [n])[..|nodes|] == nodes;
  }

  /** A new last child of the current parent extends its children only. */
  lemma {:induction false} KidsGrow(layout: seq<NTreeNode>, done: seq<nat>, child: NTreeNode, t: nat)
    requires |done| < |layout| && Start(done, |done|) <= |layout| && t <= |layout|
    ensures Kids(layout + [child], done, t) ==
      if t == |done| then Kids(layout, done, t) + [child]
      else if t < |layout| then Kids(layout, done, t)
      else []
  {
    if t < |done| {
      StartMonotone(done, t + 1, |done|);
    }
  }

  /** Taking the next parent closes the current parent's children. */
  lemma {:induction false} LinkedPop(layout: seq<NTreeNode>, done: seq<nat>)
    requires |done| + 1 < |layout| && Start(done, |done|) <= |layout| && Linked(layout, done)
    ensures Start(Popped(done, layout), |done| + 1) == |layout|
    ensures Linked(layout, Popped(done, layout))
  {
    var done' := Popped(done, layout);
    StartPrefix(done, [|layout| - Start(done, |done|)], |done|);
    forall t | 0 <= t < |layout| ensures Row(layout, done', t) {
      assert Row(layout, done, t);
      if t < |done| {
        StartPrefix(done, [|layout| - Start(done, |done|)], t);
        StartPrefix(done, [|layout| - Start(done, |done|)], t + 1);
      }
    }
  }

  /** The child counts after taking the next parent: unchanged when the root
      is taken, the current parent's closed otherwise. */
  function Next(node: NTreeNode?, done: seq<nat>, layout: seq<NTreeNode>): seq<nat>
    requires Start(done, |done|) <= |layout|
  {
    if node == null then done else Popped(done, layout)
  }

  /** One branch of a `from_list` turn: reading a `None` while the queue is
      not empty makes its head the current parent. */
  lemma {:induction false} TakeNext(values: seq<Value>, k: nat, root: NTreeNode, node: NTreeNode?, queue: seq<NTreeNode>, layout: seq<NTreeNode>, done: seq<nat>)
    requires k < |values| && values[k].VNull? && |queue| > 0
    requires Counted(values, k, Taken(node, done), |layout|)
    requires Laid(values[0], root, node, queue, layout, done)
    requires Read(values, k, node, layout, done)
    requires Linked(layout, done)
    ensures Start(done, |done|) <= |layout|
    ensures Counted(values, k + 1, Taken(queue[0], Next(node, done, layout)), |layout|)
    ensures Laid(values[0], root, queue[0], queue[1..], layout, Next(node, done, layout))
    ensures Read(values, k + 1, queue[0], layout, Next(node, done, layout))
    ensures Linked(layout, Next(node, done, layout))
  {
    LaidQueue(values[0], root, node, queue, layout, done);
    CountedStep(values, k, Taken(node, done), |layout|);
    if node == null {
      LaidRoot(values[0], root, queue, layout);
      ReadRoot(values, root, layout);
    } else {
      LaidPop(values[0], root, node, queue, layout, done);
      ReadPop(values, k, node, queue[0], layout, done);
      LinkedPop(layout, done);
    }
  }

  /** Reading `values[k]` without error: a `None` while a node is queued,
      or another value while there is a current parent. */
  lemma {:induction false} CountedStep(values: seq<Value>, k: nat, taken: nat, made: nat)
    requires Counted(values, k, taken, made) && k < |values|
    requires if values[k].VNull? then taken < made else taken >= 1
    ensures if values[k].VNull? then Counted(values, k + 1, taken + 1, made) else Counted(values, k + 1, taken, made + 1)
  {
    PopsStep(values, k);
    assert Legal(values, k);
  }

  /** The two ways the loop stops early: the list does not fit, and the
      first value after the root tells which error it is. */
  lemma {:induction false} CountedFail(values: seq<Value>, k: nat, taken: nat, made: nat)
    requires Counted(values, k, taken, made) && k < |values|
    requires if values[k].VNull? then taken == made else taken == 0
    ensures !NTreeFits(values) && |values| >= 2
    ensures values[1].VNull? == values[k].VNull?
  {
    assert !Legal(values, k);
    if k > 1 {
      NullCountFirst(values[1..k]);
    }
  }

  /** A list starting with `None` holds at least one. */
  lemma {:induction false} NullCountFirst(s: seq<Value>)
    requires s != [] && s[0].VNull?
    ensures NullCount(s) >= 1
    decreases |s|
  {
    if |s| > 1 {
      NullCountFirst(s[..|s| - 1]);
    }
  }

  /** Having read the whole list without error, it fits. */
  lemma {:induction false} CountedAll(values: seq<Value>, taken: nat, made: nat)
    requires Counted(values, |values|, taken, made)
    ensures NTreeFits(values) && taken == NullCount(values[1..])
  {
    assert values[1..|values|] == values[1..];
  }

  /** The queue holds the nodes not yet taken. */
  lemma {:induction false} LaidQueue(v0: Value, root: NTreeNode, node: NTreeNode?, queue: seq<NTreeNode>, layout: seq<NTreeNode>, done: seq<nat>)
    requires Laid(v0, root, node, queue, layout, done)
    ensures Taken(node, done) <= |layout| && |queue| == |layout| - Taken(node, done)
    ensures node != null ==> node in layout
  {
    if node != null {
      assert layout[|done|] in layout;
    }
  }

  /** Taking the root from the queue. */
  lemma {:induction false} LaidRoot(v0: Value, root: NTreeNode, queue: seq<NTreeNode>, layout: seq<NTreeNode>)
    requires Laid(v0, root, null, queue, layout, [])
    ensures queue == [root] && Laid(v0, root, root, [], layout, [])
  {
  }

  /** Taking the next parent from the queue closes the current parent's
      children. */
  lemma {:induction false} LaidPop(v0: Value, root: NTreeNode, node: NTreeNode, queue: seq<NTreeNode>, layout: seq<NTreeNode>, done: seq<nat>)
    requires Laid(v0, root, node, queue, layout, done) && |queue| > 0
    ensures |done| + 1 < |layout|
    ensures Laid(v0, root, queue[0], queue[1..], layout, Popped(done, layout))
  {
    var done', d, c := Popped(done, layout), |done|, |layout| - Start(done, |done|);
    StartPrefix(done, [c], d);
    assert Start(done', d + 1) == |layout|;
    forall t | 0 <= t <= d + 1 ensures t < Start(done', t) {
      if t <= d {
        StartPrefix(done, [c], t);
      }
    }
    assert queue[0] == layout[d + 1] && queue[1..] == layout[d + 2..];
  }

  /** A new node joins the layout and the queue. */
  lemma {:induction false} LaidChild(v0: Value, root: NTreeNode, node: NTreeNode, queue: seq<NTreeNode>, layout: seq<NTreeNode>, done: seq<nat>, child: NTreeNode)
    requires Laid(v0, root, node, queue, layout, done) && child !in layout
    ensures Laid(v0, root, node, queue + [child], layout + [child], done)
  {
    assert (layout + [child])[|done| + 1..] == layout[|done| + 1..] + [child];
  }

  /** Reading the first `None`: `[values[0], None]` is what `to_list` emits
      before any node leaves its queue. */
  lemma {:induction false} ReadRoot(values: seq<Value>, root: NTreeNode, layout: seq<NTreeNode>)
    requires Read(values, 1, null, layout, []) && layout == [root] && root.val == values[0]
    requires 1 < |values| && values[1].VNull?
    ensures Read(values, 2, root, layout, [])
  {
    assert values[..2] == [values[0], VNull] == Emitted(Vals(layout), [], 0) + Vals(layout)[1..];
  }

  /** Reading a `None` after the current parent's children: they are
      followed by a `None` in what `to_list` emits. */
  lemma {:induction false} ReadPop(values: seq<Value>, k: nat, node: NTreeNode, next: NTreeNode, layout: seq<NTreeNode>, done: seq<nat>)
    requires Read(values, k, node, layout, done) && k < |values| && values[k].VNull?
    ensures Read(values, k + 1, next, layout, Popped(done, layout))
  {
    var vs := Vals(layout);
    PoppedEmitted(vs, layout, done);
    assert values[..k + 1] == values[..k] + [VNull];
    assert vs[|layout|..] == [];
  }

  /** Taking the next parent closes the current one's children with a
      `None`. */
  lemma {:induction false} PoppedEmitted(vs: seq<Value>, layout: seq<NTreeNode>, done: seq<nat>)
    requires |vs| == |layout| && Start(done, |done|) <= |layout|
    ensures Start(Popped(done, layout), |done| + 1) == |layout|
    ensures Emitted(vs, Popped(done, layout), |done| + 1) == Emitted(vs, done, |done|) + vs[Start(done, |done|)..] + [VNull]
  {
    var done', d, c := Popped(done, layout), |done|, |layout| - Start(done, |done|);
    EmittedCountsPrefix(vs, done, [c], d);
    assert Start(done', d) == Start(done, d);
  }

  /** Reading another child of the current parent. */
  lemma {:induction false} ReadChild(values: seq<Value>, k: nat, node: NTreeNode, layout: seq<NTreeNode>, done: seq<nat>, child: NTreeNode)
    requires Read(values, k, node, layout, done) && k < |values| && child.val == values[k]
    ensures Read(values, k + 1, node, layout + [child], done)
  {
    var vs, ws := Vals(layout), Vals(layout + [child]);
    ValsAppend(layout, child);
    EmittedValsPrefix(vs, ws, done, |done|);
    assert values[..k + 1] == values[..k] + [values[k]];
    assert ws[Start(done, |done|)..] == vs[Start(done, |done|)..] + [child.val];
  }

  /** The counts `Finish` gives a finished layout describe a tree, node `t`
      having the children `from_list` gave it. */
  lemma {:induction false} FinishShape(layout: seq<NTreeNode>, done: seq<nat>)
    requires |done| < |layout| && Start(done, |done|) <= |layout|
    requires forall t :: 0 <= t <= |done| ==> t < Start(done, t)
    ensures var cs := Finish(done, layout);
      && NShape(cs)
      && forall t :: 0 <= t < |layout| ==> Kids(layout, done, t) == layout[Start(cs, t)..Start(cs, t + 1)]
  {
    var cs := Finish(done, layout);
    var d := |done|;
    FinishStarts(layout, done);
    forall t | 0 <= t < |cs| ensures t < Start(cs, t) <= |cs| {
      if t <= d {
        StartMonotone(done, t, d);
      }
    }
    forall t | 0 <= t < |layout| ensures Kids(layout, done, t) == layout[Start(cs, t)..Start(cs, t + 1)] {
      if t < d {
        assert Start(cs, t) == Start(done, t) && Start(cs, t + 1) == Start(done, t + 1);
      } else if t == d {
        assert Start(cs, t) == Start(done, d) && Start(cs, t + 1) == |layout|;
      } else {
        assert Start(cs, t) == |layout| == Start(cs, t + 1);
      }
    }
  }

  /** Where each node's children start in the finished layout: as before for
      the parents taken, and at the end for the nodes never taken. */
  lemma {:induction false} FinishStarts(layout: seq<NTreeNode>, done: seq<nat>)
    requires |done| < |layout| && Start(done, |done|) <= |layout|
    ensures |Finish(done, layout)| == |layout|
    ensures forall t :: 0 <= t <= |layout| ==> Start(Finish(done, layout), t) == if t <= |done| then Start(done, t) else |layout|
  {
    var cs := Finish(done, layout);
    var d, c := |done|, |layout| - Start(done, |done|);
    assert cs == done + ([c] + Zeros(|layout| - d - 1));
    StartPrefix(done + [c], Zeros(|layout| - d - 1), d + 1);
    StartPrefix(done, [c], d);
    forall t | 0 <= t <= |cs| ensures Start(cs, t) == if t <= d then Start(done, t) else |layout| {
      if t <= d {
        StartPrefix(done, [c] + Zeros(|layout| - d - 1), t);
      } else {
        StartFlat(cs, d + 1, t);
      }
    }
  }

  /** What `to_list` emits for the finished layout is the list read, padded
      with a `None` for each node that was never taken and one more. */
  lemma {:induction false} FinishEmitted(values: seq<Value>, node: NTreeNode?, layout: seq<NTreeNode>, done: seq<nat>)
    requires Read(values, |values|, node, layout, done) && |done| < |layout| && NShape(Finish(done, layout))
    requires node == null ==> done == [] && |layout| == 1 && layout[0].val == values[0]
    ensures Emitted(Vals(layout), Finish(done, layout), |layout|) == values + Nulls(1 + |layout| - Taken(node, done))
  {
    var cs := Finish(done, layout);
    var d := |done|;
    var vs := Vals(layout);
    if node == null {
      FinishRoot(values, layout);
    } else {
      FinishHead(values, node, layout, done);
      FinishTail(vs, layout, done);
      assert values + [VNull] + Nulls(|layout| - d - 1) == values + Nulls(|layout| - d);
    }
  }

  /** A list holding only the root decodes to a lone node, whose emitted
      list is the root's value and two `None`s. */
  lemma {:induction false} FinishRoot(values: seq<Value>, layout: seq<NTreeNode>)
    requires |values| == 1 && |layout| == 1 && layout[0].val == values[0]
    ensures Finish([], layout) == [0]
    ensures Emitted(Vals(layout), [0], 1) == values + Nulls(2)
  {
    assert Emitted(Vals(layout), [0], 0) == [values[0], VNull];
  }

  /** The current parent's children end the list read, and `to_list` follows
      them with a `None`. */
  lemma {:induction false} FinishHead(values: seq<Value>, node: NTreeNode, layout: seq<NTreeNode>, done: seq<nat>)
    requires Read(values, |values|, node, layout, done) && |done| < |layout|
    ensures Start(Finish(done, layout), |done| + 1) == |layout|
    ensures Emitted(Vals(layout), Finish(done, layout), |done| + 1) == values + [VNull]
  {
    var d := |done|;
    var vs, popped := Vals(layout), Popped(done, layout);
    PoppedEmitted(vs, layout, done);
    assert values[..|values|] == values;
    EmittedCountsPrefix(vs, popped, Zeros(|layout| - d - 1), d + 1);
  }

  /** The nodes never taken add a `None` each. */
  lemma {:induction false} FinishTail(vs: seq<Value>, layout: seq<NTreeNode>, done: seq<nat>)
    requires |done| < |layout| == |vs| && Start(done, |done|) <= |layout| && Start(Finish(done, layout), |done| + 1) == |layout|
    ensures Start(Finish(done, layout), |layout|) == |layout|
    ensures Emitted(vs, Finish(done, layout), |layout|) == Emitted(vs, Finish(done, layout), |done| + 1) + Nulls(|layout| - |done| - 1)
  {
    var cs := Finish(done, layout);
    StartFlat(cs, |done| + 1, |cs|);
    EmittedFlat(vs, cs, |done| + 1, |layout| - |done| - 1);
  }

  /** `root` is the tree `from_list` builds for `values`: `layout` lists its
      nodes breadth-first with the child counts `cs`, and what `to_list`
      emits for it, before trimming, is `values` padded with `None`s. */
  ghost predicate DecodedAs(values: seq<Value>, root: NTreeNode, layout: seq<NTreeNode>, cs: seq<nat>)
    reads layout
  {
    && |values| >= 1
    && IsNTree(root, layout, cs)
    && NullCount(values[1..]) <= |layout|
    && Emitted(Vals(layout), cs, |cs|) == values + Nulls(1 + |layout| - NullCount(values[1..]))
  }

  /** The end of the `from_list` loop: the list fits, and the nodes built
      form the tree whose emitted list is the one read, padded with `None`s. */
  lemma {:induction false} Finished(values: seq<Value>, root: NTreeNode, node: NTreeNode?, queue: seq<NTreeNode>, layout: seq<NTreeNode>, done: seq<nat>)
    requires Decoding(values, |values|, root, node, queue, layout, done)
    requires Linked(layout, done)
    ensures NTreeFits(values) && |done| < |layout| && Start(done, |done|) <= |layout|
    ensures DecodedAs(values, root, layout, Finish(done, layout))
  {
    CountedAll(values, Taken(node, done), |layout|);
    FinishShape(layout, done);
    FinishEmitted(values, node, layout, done);
    Built(root, layout, done);
  }

  /** The heap at the end of the loop is the tree `Finish` describes. */
  lemma {:induction false} Built(root: NTreeNode, layout: seq<NTreeNode>, done: seq<nat>)
    requires |done| < |layout| && Start(done, |done|) <= |layout| && layout[0] == root
    requires Linked(layout, done) && NShape(Finish(done, layout))
    requires forall t :: 0 <= t < |layout| ==> Kids(layout, done, t) == layout[Start(Finish(done, layout), t)..Start(Finish(done, layout), t + 1)]
    ensures IsNTree(root, layout, Finish(done, layout))
  {
    forall t | 0 <= t < |layout| ensures layout[t].children == Kids(layout, done, t) {
      assert Row(layout, done, t);
    }
  }
}
