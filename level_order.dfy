/**
 * Counting facts about breadth-first slot queues, shared by the binary-tree
 * codecs of the current and the legacy harness, and the trimming of trailing
 * values that both `to_list` implementations perform.
 *
 * A breadth-first encoding is viewed as a sequence of entries, each either a
 * present node (`Some`) or a hole (`None`). The root is entry 0; every present
 * entry contributes two slots, its left and right child, to the end of the
 * queue.
 */
module LevelOrder {
  import opened Wrappers
  import opened Values

  // ---------------------------------------------------------------------------
  // counting present entries

  function CountSome<T>(s: seq<Option<T>>): (n: nat)
    ensures n <= |s|
  {
    if s == [] then 0 else CountSome(s[..|s| - 1]) + (if s[|s| - 1].Some? then 1 else 0)
  }

  /** The present entries, in order. */
  function Somes<T>(s: seq<Option<T>>): (r: seq<T>)
    ensures |r| == CountSome(s)
  {
    if s == [] then [] else Somes(s[..|s| - 1]) + (if s[|s| - 1].Some? then [s[|s| - 1].value] else [])
  }

  lemma {:induction false} CountSomeStep<T>(s: seq<Option<T>>, k: nat)
    requires k < |s|
    ensures CountSome(s[..k + 1]) == CountSome(s[..k]) + (if s[k].Some? then 1 else 0)
    ensures Somes(s[..k + 1]) == Somes(s[..k]) + (if s[k].Some? then [s[k].value] else [])
  {
    assert s[..k + 1][..k] == s[..k];
  }

  lemma {:induction false} SomesAppend<T>(a: seq<Option<T>>, b: seq<Option<T>>)
    ensures Somes(a + b) == Somes(a) + Somes(b)
    ensures CountSome(a + b) == CountSome(a) + CountSome(b)
    decreases |b|
  {
    if b == [] {
      assert a + b == a;
    } else {
      var b' := b[..|b| - 1];
      assert (a + b)[..|a + b| - 1] == a + b';
      SomesAppend(a, b');
    }
  }

  /** Counting is monotone in the prefix length. */
  lemma {:induction false} CountSomeMonotone<T>(s: seq<Option<T>>, j: nat, k: nat)
    requires j <= k <= |s|
    ensures CountSome(s[..j]) <= CountSome(s[..k])
    ensures CountSome(s[..k]) <= CountSome(s[..j]) + (k - j)
    decreases k - j
  {
    if j < k {
      CountSomeStep(s, k - 1);
      CountSomeMonotone(s, j, k - 1);
    }
  }

  /** The present entries of a prefix are a prefix of the present entries. */
  lemma {:induction false} SomesPrefix<T>(s: seq<Option<T>>, k: nat)
    requires k <= |s|
    ensures CountSome(s[..k]) <= CountSome(s)
    ensures Somes(s)[..CountSome(s[..k])] == Somes(s[..k])
  {
    SomesAppend(s[..k], s[k..]);
    assert s[..k] + s[k..] == s;
  }

  /** A present entry sits in the list of present entries at the number of
      present entries before it. */
  lemma {:induction false} SomesAt<T>(s: seq<Option<T>>, k: nat)
    requires k < |s| && s[k].Some?
    ensures CountSome(s[..k]) < CountSome(s)
    ensures Somes(s)[CountSome(s[..k])] == s[k].value
  {
    CountSomeStep(s, k);
    SomesPrefix(s, k + 1);
  }

  /** Sequences with holes in the same places count alike. */
  predicate SameShape<T, U>(a: seq<Option<T>>, b: seq<Option<U>>) {
    |a| == |b| && forall t :: 0 <= t < |a| ==> (a[t].Some? <==> b[t].Some?)
  }

  lemma {:induction false} SameShapeCount<T, U>(a: seq<Option<T>>, b: seq<Option<U>>)
    requires SameShape(a, b)
    ensures CountSome(a) == CountSome(b)
    decreases |a|
  {
    if a != [] {
      SameShapeCount(a[..|a| - 1], b[..|b| - 1]);
    }
  }

  function Nones<T>(n: nat): (r: seq<Option<T>>)
    ensures |r| == n && forall t :: 0 <= t < n ==> r[t].None?
  {
    if n == 0 then [] else Nones(n - 1) + [None]
  }

  lemma {:induction false} NonesCount<T>(n: nat)
    ensures CountSome(Nones<T>(n)) == 0 && Somes(Nones<T>(n)) == []
  {
    if n > 0 {
      NonesCount<T>(n - 1);
    }
  }

  // ---------------------------------------------------------------------------
  // the slot queue

  /** Filling the slots `s` one by one never finds the queue empty: slot `t` is
      opened by the root or by one of the entries filled before it. */
  predicate Fits<T>(s: seq<Option<T>>) {
    forall t {:trigger Before(s, t)} :: 0 <= t < |s| ==> t < 2 * (1 + Before(s, t))
  }

  /** The number of present entries before position `u`. */
  function Before<T>(s: seq<Option<T>>, u: nat): nat
    requires u <= |s|
  {
    CountSome(s[..u])
  }

  /** A breadth-first entry sequence, root first, in which every present node is
      reached before the queue runs out. */
  predicate Connected<T>(e: seq<Option<T>>) {
    forall u {:trigger Before(e, u)} :: 0 <= u < |e| && e[u].Some? ==> u < 1 + 2 * Before(e, u)
  }

  lemma {:induction false} FitsPrefix<T>(s: seq<Option<T>>, k: nat)
    requires k <= |s| && Fits(s)
    ensures Fits(s[..k])
  {
    forall t | 0 <= t < k ensures t < 2 * (1 + Before(s[..k], t)) {
      assert s[..k][..t] == s[..t];
      assert t < 2 * (1 + Before(s, t));
    }
  }

  lemma {:induction false} FitsSameShape<T, U>(a: seq<Option<T>>, b: seq<Option<U>>)
    requires SameShape(a, b) && Fits(a)
    ensures Fits(b)
  {
    forall t | 0 <= t < |b| ensures t < 2 * (1 + Before(b, t)) {
      SameShapeCount(a[..t], b[..t]);
      assert t < 2 * (1 + Before(a, t));
    }
  }

  /** The filled slots of a queue that fits, followed by empty slots, make a
      connected entry sequence under a present root. */
  lemma {:induction false} FitsConnected<T>(root: T, f: seq<Option<T>>, n: nat)
    requires Fits(f)
    ensures Connected([Some(root)] + f + Nones(n))
  {
    var e := [Some(root)] + f + Nones(n);
    forall u | 0 <= u < |e| && e[u].Some?
      ensures u < 1 + 2 * Before(e, u)
    {
      if u > 0 {
        var t := u - 1;
        assert t < |f|;
        assert t < 2 * (1 + Before(f, t));
        assert e[..u] == [Some(root)] + f[..t];
        SomesAppend([Some(root)], f[..t]);
        assert CountSome([Some(root)]) == 1 by {
          assert [Some(root)][..0] == [];
        }
      }
    }
  }

  /** In a connected entry sequence with two slots per present entry, the queue
      empties only once every entry has been taken. */
  lemma {:induction false} DrainsAtEnd<T>(e: seq<Option<T>>, p: nat)
    requires Connected(e) && |e| == 1 + 2 * CountSome(e)
    requires p <= |e| && p == 1 + 2 * CountSome(e[..p])
    ensures p == |e|
  {
    if p < |e| {
      assert e[..p] + e[p..] == e;
      SomesAppend(e[..p], e[p..]);
      var u := FirstSome(e, p);
      CountThroughGap(e, p, u);
      ConnectedAt(e, u);
    }
  }

  lemma {:induction false} ConnectedAt<T>(e: seq<Option<T>>, u: nat)
    requires Connected(e) && u < |e| && e[u].Some?
    ensures u < 1 + 2 * CountSome(e[..u])
  {
    assert u < 1 + 2 * Before(e, u);
  }

  /** The first present entry at or after `p`, when there is one. */
  lemma {:induction false} FirstSome<T>(e: seq<Option<T>>, p: nat) returns (u: nat)
    requires p <= |e| && CountSome(e[p..]) > 0
    ensures p <= u < |e| && e[u].Some?
    ensures forall t :: p <= t < u ==> e[t].None?
    decreases |e| - p
  {
    if e[p].Some? {
      u := p;
    } else {
      assert e[p..] == [e[p]] + e[p + 1..];
      SomesAppend([e[p]], e[p + 1..]);
      assert [e[p]][..0] == [];
      u := FirstSome(e, p + 1);
    }
  }

  lemma {:induction false} CountThroughGap<T>(e: seq<Option<T>>, p: nat, u: nat)
    requires p <= u <= |e| && forall t :: p <= t < u ==> e[t].None?
    ensures CountSome(e[..u]) == CountSome(e[..p])
  {
    var gap := e[p..u];
    assert e[..u] == e[..p] + gap;
    SomesAppend(e[..p], gap);
    NoSomeCount(gap);
  }

  lemma {:induction false} NoSomeCount<T>(s: seq<Option<T>>)
    requires forall t :: 0 <= t < |s| ==> s[t].None?
    ensures CountSome(s) == 0
  {
    if s != [] {
      NoSomeCount(s[..|s| - 1]);
    }
  }

  /** No element occurs twice: the nodes of a layout are distinct objects. */
  predicate Distinct<T(==)>(s: seq<T>) {
    forall i, j :: 0 <= i < j < |s| ==> s[i] != s[j]
  }

  lemma DistinctSnoc<T>(s: seq<T>, x: T)
    requires Distinct(s) && x !in s
    ensures Distinct(s + [x])
  {
  }

  // ---------------------------------------------------------------------------
  // values with holes

  /** The positions holding `None`, as the holes of a breadth-first encoding. */
  function Holes(vs: seq<Value>): (r: seq<Option<Value>>)
    ensures |r| == |vs|
    ensures forall t :: 0 <= t < |vs| ==> r[t] == (if vs[t].VNull? then None else Some(vs[t]))
  {
    if vs == [] then [] else Holes(vs[..|vs| - 1]) + [if vs[|vs| - 1].VNull? then None else Some(vs[|vs| - 1])]
  }

  lemma {:induction false} HolesAppend(vs: seq<Value>, v: Value)
    ensures Holes(vs + [v]) == Holes(vs) + [if v.VNull? then None else Some(v)]
  {
    assert (vs + [v])[..|vs|] == vs;
  }

  function Nulls(n: nat): (r: seq<Value>)
    ensures |r| == n && forall t :: 0 <= t < n ==> r[t] == VNull
  {
    if n == 0 then [] else Nulls(n - 1) + [VNull]
  }

  /** A level-order list fits the binary-tree decoder: every value after the
      root finds an open slot. */
  predicate BinaryFits(vs: seq<Value>) {
    vs == [] || Fits(Holes(vs[1..]))
  }

  // ---------------------------------------------------------------------------
  // trimming

  /** The list without its trailing `None`s. */
  function TrimNulls(vs: seq<Value>): (r: seq<Value>)
  {
    if vs != [] && vs[|vs| - 1].VNull? then TrimNulls(vs[..|vs| - 1]) else vs
  }

  /** The list without its trailing falsy values. */
  function TrimFalsy(vs: seq<Value>): (r: seq<Value>)
  {
    if vs != [] && Falsy(vs[|vs| - 1]) then TrimFalsy(vs[..|vs| - 1]) else vs
  }

  /** Trimming keeps a prefix, removes only `None`s, and leaves no `None` last. */
  lemma {:induction false} TrimNullsShape(vs: seq<Value>)
    ensures var r := TrimNulls(vs);
      |r| <= |vs| && r == vs[..|r|]
      && (forall t :: |r| <= t < |vs| ==> vs[t].VNull?)
      && (r == [] || !r[|r| - 1].VNull?)
    decreases |vs|
  {
    if vs != [] && vs[|vs| - 1].VNull? {
      TrimNullsShape(vs[..|vs| - 1]);
    }
  }

  /** Trailing `None`s appended to a list are trimmed with the list's own. */
  lemma {:induction false} TrimNullsPadded(vs: seq<Value>, n: nat)
    ensures TrimNulls(vs + Nulls(n)) == TrimNulls(vs)
    decreases n
  {
    if n > 0 {
      assert (vs + Nulls(n))[..|vs + Nulls(n)| - 1] == vs + Nulls(n - 1);
      TrimNullsPadded(vs, n - 1);
    } else {
      assert vs + Nulls(n) == vs;
    }
  }

  lemma {:induction false} TrimFalsyShape(vs: seq<Value>)
    ensures var r := TrimFalsy(vs);
      |r| <= |vs| && r == vs[..|r|]
      && (forall t :: |r| <= t < |vs| ==> Falsy(vs[t]))
      && (r == [] || !Falsy(r[|r| - 1]))
    decreases |vs|
  {
    if vs != [] && Falsy(vs[|vs| - 1]) {
      TrimFalsyShape(vs[..|vs| - 1]);
    }
  }

  /** Trimming falsy values also trims every `None`, so it absorbs a prior
      trimming of `None`s. */
  lemma {:induction false} TrimFalsyAfterNulls(vs: seq<Value>)
    ensures TrimFalsy(TrimNulls(vs)) == TrimFalsy(vs)
    decreases |vs|
  {
    if vs != [] && vs[|vs| - 1].VNull? {
      TrimFalsyAfterNulls(vs[..|vs| - 1]);
    }
  }
}
