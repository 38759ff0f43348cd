/**
 What the object tree keeps over any run, and what its flattening shows.
 */
module TreeLaws {
  import opened Wrappers
  import opened Tree

  // ── every run ───────────────────────────────────────────────────────────

  datatype Op =
    | Rooted(roots: Children)
    | Flipped(node: NodeRef)
    | Opened(node: NodeRef)
    | Finished(node: NodeRef, result: Result<Children, string>)

  function Do(t: Tree, op: Op): Tree {
    match op
    case Rooted(roots) => SetRoots(roots)
    case Flipped(n) => Toggle(t, n).0
    case Opened(n) => Expand(t, n).0
    case Finished(n, result) => FinishLoad(t, n, result)
  }

  function DoAll(t: Tree, ops: seq<Op>): Tree
    decreases |ops|
  {
    if ops == [] then t else DoAll(Do(t, ops[0]), ops[1..])
  }

  /** Open or closed means there are children to show; waiting or failed means there are none. */
  predicate Consistent(t: Tree) {
    forall n :: n in t.status ==>
      && (t.status[n].Expanded? || t.status[n].Collapsed? ==> n in t.loaded)
      && (t.status[n].Loading? || t.status[n].Failed? ==> n !in t.loaded)
  }

  lemma {:induction false} AlwaysConsistent(t: Tree, ops: seq<Op>)
    requires Consistent(t)
    ensures Consistent(DoAll(t, ops))
    decreases |ops|
  {
    if ops != [] { AlwaysConsistent(Do(t, ops[0]), ops[1..]); }
  }

  /** Being fetched, or found to have nothing to fetch since. */
  predicate Asked(t: Tree, n: NodeRef) {
    n in t.status && (t.status[n].Loading? || t.status[n].Leaf?)
  }

  predicate Settles(op: Op, n: NodeRef) {
    op.Rooted? || (op.Finished? && op.node == n)
  }

  lemma {:induction false} StaysAsked(t: Tree, n: NodeRef, ops: seq<Op>)
    requires Asked(t, n) && forall i :: 0 <= i < |ops| ==> !Settles(ops[i], n)
    ensures Asked(DoAll(t, ops), n)
    decreases |ops|
  {
    if ops != [] {
      assert !Settles(ops[0], n);
      StaysAsked(Do(t, ops[0]), n, ops[1..]);
    }
  }

  /**
   One fetch at a time: once a node has answered `Load`, nothing asks for it
   again until its fetch has finished or the tree has been replaced.
   */
  lemma OneFetchAtATime(t: Tree, n: NodeRef, ops: seq<Op>)
    requires Toggle(t, n).1 == Load
    requires forall i :: 0 <= i < |ops| ==> !Settles(ops[i], n)
    ensures var later := DoAll(Toggle(t, n).0, ops);
            Toggle(later, n) == (later, Local) && Expand(later, n) == (later, Local)
  {
    StaysAsked(Toggle(t, n).0, n, ops);
  }

  // ── flattening any catalogue ────────────────────────────────────────────

  lemma DeeperBy(depth: nat)
    ensures Deeper(depth) <= depth + 1
  {
  }

  /** Rows sit no deeper than there are loaded nodes left to be inside of. */
  lemma {:induction false} DepthIsBounded(t: Tree, conn: nat, parent: NodeRef, depth: nat, open: set<NodeRef>)
    ensures forall r :: r in Walk(t, conn, parent, depth, open) ==> r.depth < depth + |t.loaded.Keys - open|
    decreases |t.loaded.Keys - open|, 0
  {
    if parent in t.loaded && parent !in open {
      Shrinks(t.loaded.Keys, open, parent);
      DepthsAreBounded(t, conn, t.loaded[parent], depth, open + {parent});
    }
  }

  lemma {:induction false} DepthsAreBounded(t: Tree, conn: nat, children: Children, depth: nat, open: set<NodeRef>)
    ensures forall r :: r in WalkAll(t, conn, children, depth, open) ==> r.depth <= depth + |t.loaded.Keys - open|
    decreases |t.loaded.Keys - open|, |children| + 1
  {
    if children != [] {
      DeeperBy(depth);
      DepthIsBounded(t, conn, children[0].ref, Deeper(depth), open);
      DepthsAreBounded(t, conn, children[1..], depth, open);
    }
  }

  lemma FlatteningIsShallow(t: Tree, conn: nat)
    ensures forall r :: r in Flatten(t, conn) ==> r.depth < |t.loaded|
  {
    DepthIsBounded(t, conn, ROOT, 0, {});
    assert t.loaded.Keys - {} == t.loaded.Keys;
  }

  // ── flattening a catalogue whose paths extend ───────────────────────────

  predicate Extends(child: NodeRef, parent: NodeRef) {
    |child.path| == |parent.path| + 1 && child.path[..|parent.path|] == parent.path
  }

  /** Every child's path is its parent's and one name more. */
  predicate PathExtending(t: Tree) {
    forall p :: p in t.loaded ==> forall i :: 0 <= i < |t.loaded[p]| ==> Extends(t.loaded[p][i].ref, p)
  }

  predicate DistinctSiblings(t: Tree) {
    forall p :: p in t.loaded ==>
      forall i, j :: 0 <= i < j < |t.loaded[p]| ==> t.loaded[p][i].ref.path != t.loaded[p][j].ref.path
  }

  function LoadedFrom(t: Tree, length: nat): set<NodeRef> {
    set p | p in t.loaded && |p.path| >= length
  }

  lemma FewerBelow(t: Tree, p: NodeRef)
    requires p in t.loaded
    ensures |LoadedFrom(t, |p.path| + 1)| < |LoadedFrom(t, |p.path|)|
  {
    var below, here := LoadedFrom(t, |p.path| + 1), LoadedFrom(t, |p.path|);
    assert p in here && p !in below && below <= here;
    assert |below| < |here| by { ProperSubset(below, here, p); }
  }

  lemma ProperSubset(a: set<NodeRef>, b: set<NodeRef>, p: NodeRef)
    requires a <= b && p in b && p !in a
    ensures |a| < |b|
  {
    assert a <= b - {p};
    CardinalityMonotone(a, b - {p});
  }

  lemma {:induction false} CardinalityMonotone(a: set<NodeRef>, b: set<NodeRef>)
    requires a <= b
    ensures |a| <= |b|
  {
    if a != {} {
      var x :| x in a;
      CardinalityMonotone(a - {x}, b - {x});
    }
  }

  predicate AllExtend(children: Children, parent: NodeRef) {
    forall i :: 0 <= i < |children| ==> Extends(children[i].ref, parent)
  }

  /** The plain preorder walk, with no guard against meeting a node inside itself. */
  function Preorder(t: Tree, conn: nat, parent: NodeRef): seq<VisibleNode>
    requires PathExtending(t)
    decreases |LoadedFrom(t, |parent.path|)|, 0
  {
    if parent !in t.loaded then []
    else
      FewerBelow(t, parent);
      PreorderAll(t, conn, parent, t.loaded[parent])
  }

  function PreorderAll(t: Tree, conn: nat, parent: NodeRef, children: Children): seq<VisibleNode>
    requires PathExtending(t) && AllExtend(children, parent)
    decreases |LoadedFrom(t, |parent.path| + 1)|, |children| + 1
  {
    if children == [] then []
    else
      [RowOf(t, conn, DepthAt(parent), children[0])]
      + Beneath(t, conn, children[0])
      + PreorderAll(t, conn, parent, children[1..])
  }

  /** The rows an open child shows beneath itself. */
  function Beneath(t: Tree, conn: nat, child: TreeNode): seq<VisibleNode>
    requires PathExtending(t)
    decreases |LoadedFrom(t, |child.ref.path|)|, 1
  {
    if StateOf(t, child) == Expanded then Preorder(t, conn, child.ref) else []
  }

  /** How deep the children of a node are drawn: as deep as its path is long. */
  function DepthAt(parent: NodeRef): nat {
    if |parent.path| < MAX_DEPTH then |parent.path| else MAX_DEPTH
  }

  predicate AllAbove(open: set<NodeRef>, parent: NodeRef) {
    forall o :: o in open ==> |o.path| < |parent.path|
  }

  lemma {:induction false} WalkIsPreorder(t: Tree, conn: nat, parent: NodeRef, open: set<NodeRef>)
    requires PathExtending(t) && AllAbove(open, parent)
    ensures parent !in open
    ensures Walk(t, conn, parent, DepthAt(parent), open) == Preorder(t, conn, parent)
    decreases |LoadedFrom(t, |parent.path|)|, 0
  {
    if parent in t.loaded {
      FewerBelow(t, parent);
      WalkAllIsPreorder(t, conn, parent, t.loaded[parent], open + {parent});
    }
  }

  lemma {:induction false} WalkAllIsPreorder(t: Tree, conn: nat, parent: NodeRef, children: Children,
                                             open: set<NodeRef>)
    requires PathExtending(t) && AllExtend(children, parent)
    requires forall o :: o in open ==> |o.path| <= |parent.path|
    ensures WalkAll(t, conn, children, DepthAt(parent), open) == PreorderAll(t, conn, parent, children)
    decreases |LoadedFrom(t, |parent.path| + 1)|, |children| + 1
  {
    hide RowOf, StateOf;
    if children != [] {
      assert Extends(children[0].ref, parent);
      WalkIsPreorder(t, conn, children[0].ref, open);
      WalkAllIsPreorder(t, conn, parent, children[1..], open);
    }
  }

  predicate IsBeneath(r: NodeRef, n: NodeRef) {
    |r.path| > |n.path| && r.path[..|n.path|] == n.path
  }

  predicate RowsBeneath(rows: seq<VisibleNode>, n: NodeRef) {
    forall i :: 0 <= i < |rows| ==> IsBeneath(rows[i].ref, n) && rows[i].depth == DepthOf(rows[i].ref)
  }

  /** One less than the length of the path. */
  function DepthOf(r: NodeRef): nat {
    if r.path == [] then 0 else if |r.path| - 1 < MAX_DEPTH then |r.path| - 1 else MAX_DEPTH
  }

  lemma {:induction false} PreorderIsBeneath(t: Tree, conn: nat, parent: NodeRef)
    requires PathExtending(t)
    ensures RowsBeneath(Preorder(t, conn, parent), parent)
    decreases |LoadedFrom(t, |parent.path|)|, 0
  {
    if parent in t.loaded {
      FewerBelow(t, parent);
      PreorderAllIsBeneath(t, conn, parent, t.loaded[parent]);
    }
  }

  lemma {:induction false} PreorderAllIsBeneath(t: Tree, conn: nat, parent: NodeRef, children: Children)
    requires PathExtending(t) && AllExtend(children, parent)
    ensures RowsBeneath(PreorderAll(t, conn, parent, children), parent)
    decreases |LoadedFrom(t, |parent.path| + 1)|, |children| + 1
  {
    if children != [] {
      var c := children[0];
      assert Extends(c.ref, parent);
      PreorderIsBeneath(t, conn, c.ref);
      PreorderAllIsBeneath(t, conn, parent, children[1..]);
      var row, sub, rest := [RowOf(t, conn, DepthAt(parent), c)], Beneath(t, conn, c),
          PreorderAll(t, conn, parent, children[1..]);
      assert RowsBeneath(row, parent);
      BeneathDeeper(sub, c.ref, parent);
      RowsBeneathJoin(row, sub, parent);
      RowsBeneathJoin(row + sub, rest, parent);
    }
  }

  lemma BeneathDeeper(rows: seq<VisibleNode>, child: NodeRef, parent: NodeRef)
    requires RowsBeneath(rows, child) && Extends(child, parent)
    ensures RowsBeneath(rows, parent)
  {
    forall i | 0 <= i < |rows| ensures IsBeneath(rows[i].ref, parent) {
      assert rows[i].ref.path[..|parent.path|] == rows[i].ref.path[..|child.path|][..|parent.path|];
    }
  }

  lemma RowsBeneathJoin(a: seq<VisibleNode>, b: seq<VisibleNode>, n: NodeRef)
    requires RowsBeneath(a, n) && RowsBeneath(b, n)
    ensures RowsBeneath(a + b, n)
  {
  }

  /**
   Where paths extend, the guard is never taken: the flattening is the plain
   preorder walk, and each row is as deep as its path is long, less one.
   */
  lemma FlatteningIsPreorder(t: Tree, conn: nat)
    requires PathExtending(t)
    ensures Flatten(t, conn) == Preorder(t, conn, ROOT)
    ensures forall i :: 0 <= i < |Flatten(t, conn)| ==> Flatten(t, conn)[i].depth == DepthOf(Flatten(t, conn)[i].ref)
  {
    WalkIsPreorder(t, conn, ROOT, {});
    PreorderIsBeneath(t, conn, ROOT);
  }

  // ── collapsing and reopening ────────────────────────────────────────────

  /** The rows without what is beneath `n`, and with `n` itself shown closed. */
  function Hidden(rows: seq<VisibleNode>, n: NodeRef): seq<VisibleNode> {
    if rows == [] then []
    else if IsBeneath(rows[0].ref, n) then Hidden(rows[1..], n)
    else [Closed(rows[0], n)] + Hidden(rows[1..], n)
  }

  function Closed(row: VisibleNode, n: NodeRef): VisibleNode {
    if row.ref == n && row.state == Expanded then row.(state := Collapsed) else row
  }

  lemma {:induction false} HiddenJoin(a: seq<VisibleNode>, b: seq<VisibleNode>, n: NodeRef)
    ensures Hidden(a + b, n) == Hidden(a, n) + Hidden(b, n)
  {
    if a == [] {
      assert a + b == b;
    } else {
      assert (a + b)[1..] == a[1..] + b;
      HiddenJoin(a[1..], b, n);
    }
  }

  predicate AllBeneath(rows: seq<VisibleNode>, n: NodeRef) {
    forall i :: 0 <= i < |rows| ==> IsBeneath(rows[i].ref, n)
  }

  predicate NoneAtOrBeneath(rows: seq<VisibleNode>, n: NodeRef) {
    forall i :: 0 <= i < |rows| ==> !IsBeneath(rows[i].ref, n) && rows[i].ref != n
  }

  lemma {:induction false} HiddenBeneath(rows: seq<VisibleNode>, n: NodeRef)
    requires AllBeneath(rows, n)
    ensures Hidden(rows, n) == []
  {
    if rows != [] { HiddenBeneath(rows[1..], n); }
  }

  lemma {:induction false} HiddenElsewhere(rows: seq<VisibleNode>, n: NodeRef)
    requires NoneAtOrBeneath(rows, n)
    ensures Hidden(rows, n) == rows
  {
    if rows != [] { HiddenElsewhere(rows[1..], n); }
  }

  /** No row shows the path of `n` but `n`. */
  predicate OnlyNode(rows: seq<VisibleNode>, n: NodeRef) {
    forall i :: 0 <= i < |rows| ==> rows[i].ref.path == n.path ==> rows[i].ref == n
  }

  predicate AtOrAbove(n: NodeRef, p: NodeRef) {
    |n.path| <= |p.path| && p.path[..|n.path|] == n.path
  }

  function Close(t: Tree, n: NodeRef): Tree {
    t.(status := t.status[n := Collapsed])
  }

  lemma {:induction false} ClosingHides(t: Tree, conn: nat, n: NodeRef, parent: NodeRef)
    requires PathExtending(t) && n in t.status && t.status[n] == Expanded
    requires !AtOrAbove(n, parent) && OnlyNode(Preorder(t, conn, parent), n)
    ensures Preorder(Close(t, n), conn, parent) == Hidden(Preorder(t, conn, parent), n)
    decreases |LoadedFrom(t, |parent.path|)|, 0
  {
    if parent in t.loaded {
      FewerBelow(t, parent);
      ClosingHidesAll(t, conn, n, parent, t.loaded[parent]);
    }
  }

  lemma {:induction false} ClosingHidesAll(t: Tree, conn: nat, n: NodeRef, parent: NodeRef, children: Children)
    requires PathExtending(t) && AllExtend(children, parent) && n in t.status && t.status[n] == Expanded
    requires !AtOrAbove(n, parent) && OnlyNode(PreorderAll(t, conn, parent, children), n)
    ensures PreorderAll(Close(t, n), conn, parent, children) == Hidden(PreorderAll(t, conn, parent, children), n)
    decreases |LoadedFrom(t, |parent.path| + 1)|, |children| + 1
  {
    if children != [] {
      var c := children[0];
      var row, sub, rest := [RowOf(t, conn, DepthAt(parent), c)], Beneath(t, conn, c),
          PreorderAll(t, conn, parent, children[1..]);
      var all := row + sub + rest;
      assert Extends(c.ref, parent);
      assert forall i :: 0 <= i < |sub| ==> sub[i] == all[1 + i];
      assert forall i :: 0 <= i < |rest| ==> rest[i] == all[1 + |sub| + i];
      assert all[0].ref == c.ref;
      ClosingHidesAll(t, conn, n, parent, children[1..]);
      ClosingHidesChild(t, conn, n, parent, c);
      HiddenJoin(row + sub, rest, n);
      HiddenJoin(row, sub, n);
    }
  }

  /** What is at or above a child is the child's path, or at or above its parent. */
  lemma AboveParent(child: NodeRef, parent: NodeRef, n: NodeRef)
    requires Extends(child, parent)
    ensures AtOrAbove(n, child) ==> n.path == child.path || AtOrAbove(n, parent)
  {
    if |n.path| <= |parent.path| {
      assert child.path[..|n.path|] == child.path[..|parent.path|][..|n.path|];
    } else if |n.path| == |child.path| {
      assert child.path[..|n.path|] == child.path;
    }
  }

  lemma {:induction false} ClosingHidesChild(t: Tree, conn: nat, n: NodeRef, parent: NodeRef, c: TreeNode)
    requires PathExtending(t) && Extends(c.ref, parent) && n in t.status && t.status[n] == Expanded
    requires !AtOrAbove(n, parent)
    requires c.ref.path == n.path ==> c.ref == n
    requires OnlyNode(Beneath(t, conn, c), n)
    ensures [RowOf(Close(t, n), conn, DepthAt(parent), c)] == Hidden([RowOf(t, conn, DepthAt(parent), c)], n)
    ensures Beneath(Close(t, n), conn, c) == Hidden(Beneath(t, conn, c), n)
    decreases |LoadedFrom(t, |parent.path| + 1)|, 1
  {
    var row := RowOf(t, conn, DepthAt(parent), c);
    assert [row][1..] == [];
    AboveParent(c.ref, parent, n);
    if c.ref == n {
      PreorderIsBeneath(t, conn, c.ref);
      HiddenBeneath(Beneath(t, conn, c), n);
    } else if StateOf(t, c) == Expanded {
      ClosingHides(t, conn, n, c.ref);
    }
  }

  // ── a preorder keeps what is beneath a node together ────────────────────

  /** What is beneath a row comes right after it, with nothing else in between. */
  predicate Together(rows: seq<VisibleNode>) {
    && (forall i, k :: 0 <= i < |rows| && 0 <= k < |rows| && IsBeneath(rows[k].ref, rows[i].ref) ==> i < k)
    && (forall i, j, k :: 0 <= i < j < k < |rows| && IsBeneath(rows[k].ref, rows[i].ref)
          ==> IsBeneath(rows[j].ref, rows[i].ref))
  }

  predicate DistinctPaths(rows: seq<VisibleNode>) {
    forall i, j :: 0 <= i < j < |rows| ==> rows[i].ref.path != rows[j].ref.path
  }

  predicate Neat(rows: seq<VisibleNode>) { Together(rows) && DistinctPaths(rows) }

  /** Two groups of rows with nothing of one beneath or at anything of the other. */
  predicate Apart(a: seq<VisibleNode>, b: seq<VisibleNode>) {
    forall i, j :: 0 <= i < |a| && 0 <= j < |b| ==>
      && a[i].ref.path != b[j].ref.path
      && !IsBeneath(a[i].ref, b[j].ref) && !IsBeneath(b[j].ref, a[i].ref)
  }

  lemma NeatJoin(a: seq<VisibleNode>, b: seq<VisibleNode>)
    requires Neat(a) && Neat(b) && Apart(a, b)
    ensures Neat(a + b)
  {
    var all := a + b;
    forall i, j | 0 <= i < j < |all| ensures all[i].ref.path != all[j].ref.path {
      if i < |a| <= j { assert all[i] == a[i] && all[j] == b[j - |a|]; }
    }
    forall i, k | 0 <= i < |all| && 0 <= k < |all| && IsBeneath(all[k].ref, all[i].ref) ensures i < k {
      assert i < |a| <==> k < |a|;
    }
    forall i, j, k | 0 <= i < j < k < |all| && IsBeneath(all[k].ref, all[i].ref)
      ensures IsBeneath(all[j].ref, all[i].ref)
    {
      assert i < |a| <==> k < |a|;
      if i >= |a| {
        assert all[i] == b[i - |a|] && all[j] == b[j - |a|] && all[k] == b[k - |a|];
      }
    }
  }

  lemma NeatUnder(row: VisibleNode, rows: seq<VisibleNode>)
    requires Neat(rows) && RowsBeneath(rows, row.ref)
    ensures Neat([row] + rows)
  {
    var all := [row] + rows;
    forall i, k | 0 <= i < |all| && 0 <= k < |all| && IsBeneath(all[k].ref, all[i].ref) ensures i < k {
      if i > 0 { assert all[i] == rows[i - 1]; }
    }
    forall i, j, k | 0 <= i < j < k < |all| && IsBeneath(all[k].ref, all[i].ref)
      ensures IsBeneath(all[j].ref, all[i].ref)
    {
      assert all[j] == rows[j - 1] && all[k] == rows[k - 1];
      if i > 0 { assert all[i] == rows[i - 1]; }
    }
    assert forall j :: 0 < j < |all| ==> all[j] == rows[j - 1];
  }

  /** Rows at or under one of two siblings are apart from rows at or under the other. */
  lemma SiblingsApart(a: VisibleNode, under: seq<VisibleNode>, rest: seq<VisibleNode>, n: nat)
    requires |a.ref.path| == n && RowsBeneath(under, a.ref)
    requires NoneThrough(rest, a.ref)
    ensures Apart([a] + under, rest)
  {
    var all := [a] + under;
    forall i, j | 0 <= i < |all| && 0 <= j < |rest|
      ensures all[i].ref.path != rest[j].ref.path
      ensures !IsBeneath(all[i].ref, rest[j].ref) && !IsBeneath(rest[j].ref, all[i].ref)
    {
      var x, y := all[i].ref.path, rest[j].ref.path;
      assert i > 0 ==> all[i] == under[i - 1];
      assert x[..n] == a.ref.path;
      assert |y| <= |x| ==> x[..|y|][..n] == x[..n];
      assert |x| <= |y| ==> y[..|x|][..n] == y[..n];
    }
  }

  lemma {:induction false} PreorderIsNeat(t: Tree, conn: nat, parent: NodeRef)
    requires PathExtending(t) && DistinctSiblings(t)
    ensures Neat(Preorder(t, conn, parent))
    decreases |LoadedFrom(t, |parent.path|)|, 0
  {
    if parent in t.loaded {
      FewerBelow(t, parent);
      PreorderAllIsNeat(t, conn, parent, t.loaded[parent]);
    }
  }

  predicate DistinctChildren(children: Children) {
    forall i, j :: 0 <= i < j < |children| ==> children[i].ref.path != children[j].ref.path
  }

  lemma {:induction false} PreorderAllIsNeat(t: Tree, conn: nat, parent: NodeRef, children: Children)
    requires PathExtending(t) && DistinctSiblings(t) && AllExtend(children, parent) && DistinctChildren(children)
    ensures Neat(PreorderAll(t, conn, parent, children))
    decreases |LoadedFrom(t, |parent.path| + 1)|, |children| + 1
  {
    hide Neat, RowOf, StateOf;
    if children == [] {
      NeatNone();
    } else {
      var c := children[0];
      assert Extends(c.ref, parent);
      var row, sub, rest := RowOf(t, conn, DepthAt(parent), c), Beneath(t, conn, c),
          PreorderAll(t, conn, parent, children[1..]);
      PreorderIsNeat(t, conn, c.ref);
      NeatNone();
      PreorderIsBeneath(t, conn, c.ref);
      PreorderAllIsNeat(t, conn, parent, children[1..]);
      RowRef(t, conn, DepthAt(parent), c);
      NeatUnder(row, sub);
      OtherSiblings(t, conn, parent, children[1..], c.ref);
      SiblingsApart(row, sub, rest, |parent.path| + 1);
      NeatJoin([row] + sub, rest);
    }
  }

  lemma RowRef(t: Tree, conn: nat, depth: nat, c: TreeNode)
    ensures RowOf(t, conn, depth, c).ref == c.ref
  {
  }

  lemma NeatNone()
    ensures Neat([])
  {
  }

  /** No row has its path through `c`. */
  predicate NoneThrough(rows: seq<VisibleNode>, c: NodeRef) {
    forall j :: 0 <= j < |rows| ==> |rows[j].ref.path| >= |c.path| && rows[j].ref.path[..|c.path|] != c.path
  }

  lemma NoneThroughJoin(a: seq<VisibleNode>, b: seq<VisibleNode>, c: NodeRef)
    requires NoneThrough(a, c) && NoneThrough(b, c)
    ensures NoneThrough(a + b, c)
  {
  }

  lemma NoneThroughBeneath(rows: seq<VisibleNode>, d: NodeRef, c: NodeRef)
    requires RowsBeneath(rows, d) && |d.path| == |c.path| && d.path != c.path
    ensures NoneThrough(rows, c)
  {
  }

  /** Rows at or under the other children have none of their paths through `c`. */
  lemma {:induction false} OtherSiblings(t: Tree, conn: nat, parent: NodeRef, children: Children, c: NodeRef)
    requires PathExtending(t) && AllExtend(children, parent)
    requires |c.path| == |parent.path| + 1
    requires forall i :: 0 <= i < |children| ==> children[i].ref.path != c.path
    ensures NoneThrough(PreorderAll(t, conn, parent, children), c)
    decreases |children|
  {
    if children != [] {
      var d := children[0];
      assert Extends(d.ref, parent);
      PreorderIsBeneath(t, conn, d.ref);
      OtherSiblings(t, conn, parent, children[1..], c);
      var row, sub, rest := RowOf(t, conn, DepthAt(parent), d), Beneath(t, conn, d),
          PreorderAll(t, conn, parent, children[1..]);
      RowRef(t, conn, DepthAt(parent), d);
      assert row.ref.path[..|c.path|] == d.ref.path;
      NoneThroughBeneath(sub, d.ref, c);
      NoneThroughJoin([row], sub, c);
      NoneThroughJoin([row] + sub, rest, c);
    }
  }

  lemma TogetherAt(rows: seq<VisibleNode>, i: nat, j: nat, k: nat)
    requires Together(rows) && i < j < k < |rows|
    ensures IsBeneath(rows[k].ref, rows[i].ref) ==> IsBeneath(rows[j].ref, rows[i].ref)
  {
  }

  /** Where what is beneath row `i` ends. */
  lemma BlockEnd(rows: seq<VisibleNode>, i: nat) returns (j: nat)
    requires i < |rows| && Together(rows)
    ensures i < j <= |rows|
    ensures forall k :: 0 <= k < |rows| ==> (IsBeneath(rows[k].ref, rows[i].ref) <==> i < k < j)
  {
    j := i + 1;
    while j < |rows| && IsBeneath(rows[j].ref, rows[i].ref)
      invariant i < j <= |rows|
      invariant forall k :: i < k < j ==> IsBeneath(rows[k].ref, rows[i].ref)
    {
      j := j + 1;
    }
    forall k | 0 <= k < |rows| ensures IsBeneath(rows[k].ref, rows[i].ref) <==> i < k < j {
      if j < k { TogetherAt(rows, i, j, k); }
    }
  }

  lemma HiddenBlock(rows: seq<VisibleNode>, i: nat, j: nat)
    requires i < j <= |rows| && DistinctPaths(rows) && rows[i].state == Expanded
    requires forall k :: 0 <= k < |rows| ==> (IsBeneath(rows[k].ref, rows[i].ref) <==> i < k < j)
    ensures Hidden(rows, rows[i].ref) == rows[..i] + [rows[i].(state := Collapsed)] + rows[j..]
  {
    PartsOfBlock(rows, i, j);
    hide *;
    FourParts(rows, i, j);
    HiddenParts(rows[..i], rows[i], rows[i + 1..j], rows[j..]);
  }

  lemma HiddenParts(front: seq<VisibleNode>, row: VisibleNode, block: seq<VisibleNode>, back: seq<VisibleNode>)
    requires row.state == Expanded && !IsBeneath(row.ref, row.ref)
    requires NoneAtOrBeneath(front, row.ref) && AllBeneath(block, row.ref) && NoneAtOrBeneath(back, row.ref)
    ensures Hidden(front + [row] + block + back, row.ref) == front + [row.(state := Collapsed)] + back
  {
    hide *;
    var n, mid := row.ref, [row];
    HiddenJoin(front + mid + block, back, n);
    HiddenJoin(front + mid, block, n);
    HiddenJoin(front, mid, n);
    HiddenElsewhere(front, n);
    HiddenBeneath(block, n);
    HiddenElsewhere(back, n);
    HiddenOne(row, n);
    assert front + [row.(state := Collapsed)] + [] == front + [row.(state := Collapsed)];
  }

  lemma PartsOfBlock(rows: seq<VisibleNode>, i: nat, j: nat)
    requires i < j <= |rows| && DistinctPaths(rows)
    requires forall k :: 0 <= k < |rows| ==> (IsBeneath(rows[k].ref, rows[i].ref) <==> i < k < j)
    ensures var n := rows[i].ref;
            && NoneAtOrBeneath(rows[..i], n) && AllBeneath(rows[i + 1..j], n) && NoneAtOrBeneath(rows[j..], n)
            && !IsBeneath(n, n)
  {
    hide IsBeneath;
    var n := rows[i].ref;
    forall k | 0 <= k < |rows[..i]| ensures !IsBeneath(rows[..i][k].ref, n) && rows[..i][k].ref != n {
      assert rows[..i][k] == rows[k];
    }
    forall k | 0 <= k < |rows[j..]| ensures !IsBeneath(rows[j..][k].ref, n) && rows[j..][k].ref != n {
      assert rows[j..][k] == rows[j + k];
    }
    var block := rows[i + 1..j];
    forall k | 0 <= k < |block| ensures IsBeneath(block[k].ref, n) {
      assert block[k] == rows[i + 1 + k];
    }
  }

  lemma HiddenOne(row: VisibleNode, n: NodeRef)
    requires !IsBeneath(row.ref, n) && row.ref == n && row.state == Expanded
    ensures Hidden([row], n) == [row.(state := Collapsed)]
  {
    assert [row][1..] == [];
  }

  lemma FourParts<T>(s: seq<T>, i: nat, j: nat)
    requires i < j <= |s|
    ensures s == s[..i] + [s[i]] + s[i + 1..j] + s[j..]
  {
  }

  /**
   Collapsing an open row takes away the rows beneath it, which stand together
   right after it, and nothing else; opening it again fetches nothing and
   brings back the very state there was, and so the same view.
   */
  lemma CollapseAndReopen(t: Tree, conn: nat, i: nat) returns (j: nat)
    requires Consistent(t) && PathExtending(t) && DistinctSiblings(t)
    requires i < |Flatten(t, conn)| && Flatten(t, conn)[i].state == Expanded
    ensures var rows := Flatten(t, conn);
            var n := rows[i].ref;
            var (closed, answer) := Toggle(t, n);
            && answer == Local
            && i < j <= |rows|
            && (forall k :: 0 <= k < |rows| ==> (IsBeneath(rows[k].ref, n) <==> i < k < j))
            && Flatten(closed, conn) == rows[..i] + [rows[i].(state := Collapsed)] + rows[j..]
            && Toggle(closed, n) == (t, Local)
  {
    var rows := Flatten(t, conn);
    var n := rows[i].ref;
    FlatteningIsPreorder(t, conn);
    PreorderIsNeat(t, conn, ROOT);
    ShownState(t, conn, ROOT, i);
    j := BlockEnd(rows, i);
    Reopened(t, n);
    PreorderIsBeneath(t, conn, ROOT);
    ClosingHides(t, conn, n, ROOT);
    HiddenBlock(rows, i, j);
    FlatteningIsPreorder(Close(t, n), conn);
  }

  lemma Reopened(t: Tree, n: NodeRef)
    requires Consistent(t) && n in t.status && t.status[n] == Expanded
    ensures Toggle(t, n) == (Close(t, n), Local)
    ensures Toggle(Close(t, n), n) == (t, Local)
  {
    assert t.status[n := Collapsed][n := Expanded] == t.status;
  }

  /** A row shown open is open. */
  lemma {:induction false} ShownState(t: Tree, conn: nat, parent: NodeRef, i: nat)
    requires PathExtending(t) && i < |Preorder(t, conn, parent)| && Preorder(t, conn, parent)[i].state == Expanded
    ensures var n := Preorder(t, conn, parent)[i].ref; n in t.status && t.status[n] == Expanded
    decreases |LoadedFrom(t, |parent.path|)|, 0
  {
    FewerBelow(t, parent);
    ShownStateAll(t, conn, parent, t.loaded[parent], i);
  }

  lemma {:induction false} ShownStateAll(t: Tree, conn: nat, parent: NodeRef, children: Children, i: nat)
    requires PathExtending(t) && AllExtend(children, parent)
    requires i < |PreorderAll(t, conn, parent, children)| && PreorderAll(t, conn, parent, children)[i].state == Expanded
    ensures var n := PreorderAll(t, conn, parent, children)[i].ref; n in t.status && t.status[n] == Expanded
    decreases |LoadedFrom(t, |parent.path| + 1)|, |children| + 1
  {
    var c := children[0];
    assert Extends(c.ref, parent);
    var sub := Beneath(t, conn, c);
    if 0 < i <= |sub| {
      assert PreorderAll(t, conn, parent, children)[i] == sub[i - 1];
      ShownState(t, conn, c.ref, i - 1);
    } else if i > |sub| {
      assert PreorderAll(t, conn, parent, children)[i] == PreorderAll(t, conn, parent, children[1..])[i - 1 - |sub|];
      ShownStateAll(t, conn, parent, children[1..], i - 1 - |sub|);
    }
  }
}
