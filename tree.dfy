/** The recursive shape shared by the two hierarchical payloads: a
    capability holds nested `capabilities`, a component nested `components`.
    An absent child list and an empty one behave alike everywhere in the
    engine, so children are a plain sequence. */
module Tree {

  datatype Node<A> = Node(attrs: A, children: seq<Node<A>>)

  /** Number of nodes in a forest. */
  function Count<A>(ns: seq<Node<A>>): nat
    decreases ns
  {
    if ns == [] then 0 else Size(ns[0]) + Count(ns[1..])
  }

  /** Number of nodes in one tree, its root included. */
  function Size<A>(n: Node<A>): nat
    decreases n
  {
    1 + Count(n.children)
  }

  lemma {:induction false} CountAppend<A>(a: seq<Node<A>>, b: seq<Node<A>>)
    ensures Count(a + b) == Count(a) + Count(b)
  {
    if a == [] {
      assert a + b == b;
    } else {
      assert (a + b)[0] == a[0];
      assert (a + b)[1..] == a[1..] + b;
      CountAppend(a[1..], b);
    }
  }

  /** A node met during a depth-first walk, with its nesting depth. */
  datatype Visit<A> = Visit(attrs: A, depth: nat)

  /** Depth-first, pre-order walk of a forest whose roots sit at `depth`:
      each node, then its subtree one level deeper, then its later siblings. */
  function Preorder<A>(ns: seq<Node<A>>, depth: nat): seq<Visit<A>>
    decreases ns
  {
    if ns == [] then []
    else [Visit(ns[0].attrs, depth)] + Preorder(ns[0].children, depth + 1) + Preorder(ns[1..], depth)
  }

  /** Walking two forests one after the other is walking their concatenation. */
  lemma {:induction false} PreorderAppend<A>(a: seq<Node<A>>, b: seq<Node<A>>, depth: nat)
    ensures Preorder(a + b, depth) == Preorder(a, depth) + Preorder(b, depth)
  {
    if a == [] {
      assert a + b == b;
    } else {
      assert (a + b)[0] == a[0];
      assert (a + b)[1..] == a[1..] + b;
      PreorderAppend(a[1..], b, depth);
    }
  }

  /** The walk visits every node exactly once. */
  lemma {:induction false} PreorderLength<A>(ns: seq<Node<A>>, depth: nat)
    ensures |Preorder(ns, depth)| == Count(ns)
    decreases ns
  {
    if ns != [] {
      PreorderLength(ns[0].children, depth + 1);
      PreorderLength(ns[1..], depth);
    }
  }

  /** Walking a forest extended by one more root: the old walk, then that
      root, then its subtree one level deeper. */
  lemma PreorderSnoc<A>(ns: seq<Node<A>>, n: Node<A>, depth: nat)
    ensures Preorder(ns + [n], depth) ==
      Preorder(ns, depth) + [Visit(n.attrs, depth)] + Preorder(n.children, depth + 1)
  {
    PreorderAppend(ns, [n], depth);
    assert [n][1..] == [];
  }

  /** The i-th root is preceded by the walk of the roots before it (which has
      Count(ns[..i]) entries), recorded at the roots' depth, and immediately
      followed by the walk of its own children one level deeper. */
  lemma PreorderAt<A>(ns: seq<Node<A>>, depth: nat, i: nat)
    requires i < |ns|
    ensures Preorder(ns, depth) ==
      Preorder(ns[..i], depth) + [Visit(ns[i].attrs, depth)]
      + Preorder(ns[i].children, depth + 1) + Preorder(ns[i + 1..], depth)
    ensures |Preorder(ns[..i], depth)| == Count(ns[..i])
  {
    assert ns == ns[..i] + ([ns[i]] + ns[i + 1..]);
    PreorderAppend(ns[..i], [ns[i]] + ns[i + 1..], depth);
    assert ([ns[i]] + ns[i + 1..])[1..] == ns[i + 1..];
    PreorderLength(ns[..i], depth);
  }

  /** The depth profile of a pre-order walk whose roots sit at `root`:
      it starts at the root depth, never goes above it, and each step goes
      at most one level deeper. */
  ghost predicate WellNested(ds: seq<nat>, root: nat) {
    && (|ds| > 0 ==> ds[0] == root)
    && (forall j :: 0 <= j < |ds| ==> root <= ds[j])
    && (forall j :: 0 < j < |ds| ==> ds[j] <= ds[j - 1] + 1)
  }

  function Depths<A>(vs: seq<Visit<A>>): (ds: seq<nat>)
    ensures |ds| == |vs| && forall j :: 0 <= j < |vs| ==> ds[j] == vs[j].depth
  {
    seq(|vs|, j requires 0 <= j < |vs| => vs[j].depth)
  }

  lemma WellNestedAppend(a: seq<nat>, b: seq<nat>, root: nat)
    requires WellNested(a, root) && WellNested(b, root)
    ensures WellNested(a + b, root)
  {
    if a != [] && b != [] {
      assert (a + b)[|a|] == b[0] == root <= a[|a| - 1];
    }
  }

  lemma WellNestedDeeper(ds: seq<nat>, root: nat)
    requires WellNested(ds, root + 1)
    ensures WellNested([root] + ds, root)
  {
  }

  /** Every pre-order walk has a well-nested depth profile. */
  lemma {:induction false} PreorderWellNested<A>(ns: seq<Node<A>>, depth: nat)
    ensures WellNested(Depths(Preorder(ns, depth)), depth)
    decreases ns
  {
    if ns != [] {
      var kids := Preorder(ns[0].children, depth + 1);
      var rest := Preorder(ns[1..], depth);
      PreorderWellNested(ns[0].children, depth + 1);
      PreorderWellNested(ns[1..], depth);
      WellNestedDeeper(Depths(kids), depth);
      assert Depths([Visit(ns[0].attrs, depth)] + kids) == [depth] + Depths(kids);
      WellNestedAppend([depth] + Depths(kids), Depths(rest), depth);
      assert Depths(Preorder(ns, depth)) == [depth] + Depths(kids) + Depths(rest);
    }
  }

  /** In a well-nested profile every depth between the root depth and the
      depth at position j is reached at or before j. */
  lemma {:induction false} DepthReached(ds: seq<nat>, root: nat, j: nat, t: nat)
    requires WellNested(ds, root) && j < |ds| && root <= t <= ds[j]
    ensures exists k :: 0 <= k <= j && ds[k] == t
    decreases j
  {
    if ds[j] != t {
      DepthReached(ds, root, j - 1, t);
    }
  }

  /** Every entry below the roots has a parent: an earlier entry exactly one
      level shallower. */
  lemma ParentBefore(ds: seq<nat>, root: nat, j: nat)
    requires WellNested(ds, root) && j < |ds| && ds[j] > root
    ensures exists k :: 0 <= k < j && ds[k] == ds[j] - 1
  {
    DepthReached(ds, root, j, ds[j] - 1);
  }
}
