/**
 What asking for a node's children shows, and what the answer shows: the rows of
 the node's children behind its own, and every other row where it was.
 */
module Opening {
  import opened Wrappers
  import opened Tree
  import opened TreeLaws

  /** How a node that has children is drawn. */
  function DrawnAs(t: Tree, n: NodeRef): NodeState {
    if n in t.status then t.status[n] else Collapsed
  }

  /** The two trees are the same but for `n` and what is beneath it. */
  ghost predicate SameElsewhere(t: Tree, u: Tree, n: NodeRef) {
    forall p: NodeRef :: !AtOrAbove(n, p) ==>
      && (p in t.loaded <==> p in u.loaded) && (p in t.loaded ==> t.loaded[p] == u.loaded[p])
      && (p in t.status <==> p in u.status) && (p in t.status ==> t.status[p] == u.status[p])
  }

  /** The rows, where that of `n` has a new state and some more rows behind it. */
  function Spliced(rows: seq<VisibleNode>, n: NodeRef, was: NodeState, now: NodeState, more: seq<VisibleNode>)
    : seq<VisibleNode>
  {
    if rows == [] then []
    else
      (if rows[0].ref == n && rows[0].state == was then [rows[0].(state := now)] + more else [rows[0]])
      + Spliced(rows[1..], n, was, now, more)
  }

  lemma {:induction false} SplicedJoin(a: seq<VisibleNode>, b: seq<VisibleNode>, n: NodeRef, was: NodeState,
                                       now: NodeState, more: seq<VisibleNode>)
    ensures Spliced(a + b, n, was, now, more) == Spliced(a, n, was, now, more) + Spliced(b, n, was, now, more)
  {
    if a == [] {
      assert a + b == b;
    } else {
      assert (a + b)[1..] == a[1..] + b;
      SplicedJoin(a[1..], b, n, was, now, more);
    }
  }

  lemma SplicedOne(row: VisibleNode, n: NodeRef, was: NodeState, now: NodeState, more: seq<VisibleNode>)
    ensures Spliced([row], n, was, now, more) ==
            if row.ref == n && row.state == was then [row.(state := now)] + more else [row]
  {
    assert [row][1..] == [];
  }

  lemma {:induction false} SplicedElsewhere(rows: seq<VisibleNode>, n: NodeRef, was: NodeState, now: NodeState,
                                            more: seq<VisibleNode>)
    requires forall i :: 0 <= i < |rows| ==> rows[i].ref != n
    ensures Spliced(rows, n, was, now, more) == rows
  {
    if rows != [] {
      SplicedElsewhere(rows[1..], n, was, now, more);
    }
  }

  /** What a node in that state shows beneath itself. */
  function Under(t: Tree, conn: nat, n: NodeRef): seq<VisibleNode>
    requires PathExtending(t)
  {
    if DrawnAs(t, n) == Expanded then Preorder(t, conn, n) else []
  }

  /** Whatever becomes of a node that is not open, its row and what is beneath it change, and no other. */
  lemma {:induction false} TurningSplices(t: Tree, u: Tree, conn: nat, n: NodeRef, parent: NodeRef)
    requires PathExtending(t) && PathExtending(u) && SameElsewhere(t, u, n)
    requires DrawnAs(t, n) != Expanded && DrawnAs(t, n) != Leaf
    requires !AtOrAbove(n, parent) && OnlyNode(Preorder(t, conn, parent), n)
    ensures Preorder(u, conn, parent) ==
            Spliced(Preorder(t, conn, parent), n, DrawnAs(t, n), DrawnAs(u, n), Under(u, conn, n))
    decreases |LoadedFrom(t, |parent.path|)|, 0
  {
    if parent in t.loaded {
      FewerBelow(t, parent);
      TurningSplicesAll(t, u, conn, n, parent, t.loaded[parent]);
    }
  }

  lemma {:induction false} TurningSplicesAll(t: Tree, u: Tree, conn: nat, n: NodeRef, parent: NodeRef,
                                             children: Children)
    requires PathExtending(t) && PathExtending(u) && SameElsewhere(t, u, n)
    requires DrawnAs(t, n) != Expanded && DrawnAs(t, n) != Leaf && AllExtend(children, parent)
    requires !AtOrAbove(n, parent) && OnlyNode(PreorderAll(t, conn, parent, children), n)
    ensures PreorderAll(u, conn, parent, children) ==
            Spliced(PreorderAll(t, conn, parent, children), n, DrawnAs(t, n), DrawnAs(u, n), Under(u, conn, n))
    decreases |LoadedFrom(t, |parent.path| + 1)|, |children| + 1
  {
    hide Under, RowOf, StateOf, SameElsewhere, AtOrAbove;
    if children != [] {
      var c := children[0];
      assert Extends(c.ref, parent);
      var row, sub, rest := [RowOf(t, conn, DepthAt(parent), c)], Beneath(t, conn, c),
          PreorderAll(t, conn, parent, children[1..]);
      RowRef(t, conn, DepthAt(parent), c);
      OnlyInEach(row, sub, rest, n);
      assert c.ref.path == n.path ==> c.ref == n by { assert row[0].ref == c.ref; }
      TurningSplicesAll(t, u, conn, n, parent, children[1..]);
      TurningSplicesChild(t, u, conn, n, parent, c);
      var was, now, more := DrawnAs(t, n), DrawnAs(u, n), Under(u, conn, n);
      SplicedJoin(row + sub, rest, n, was, now, more);
      SplicedJoin(row, sub, n, was, now, more);
    }
  }

  lemma OnlyInEach(a: seq<VisibleNode>, b: seq<VisibleNode>, c: seq<VisibleNode>, n: NodeRef)
    requires OnlyNode(a + b + c, n)
    ensures OnlyNode(a, n) && OnlyNode(b, n) && OnlyNode(c, n)
  {
    var all := a + b + c;
    assert forall i :: 0 <= i < |a| ==> a[i] == all[i];
    assert forall i :: 0 <= i < |b| ==> b[i] == all[|a| + i];
    assert forall i :: 0 <= i < |c| ==> c[i] == all[|a| + |b| + i];
  }

  lemma {:induction false} TurningSplicesChild(t: Tree, u: Tree, conn: nat, n: NodeRef, parent: NodeRef, c: TreeNode)
    requires PathExtending(t) && PathExtending(u) && SameElsewhere(t, u, n)
    requires DrawnAs(t, n) != Expanded && DrawnAs(t, n) != Leaf
    requires Extends(c.ref, parent) && !AtOrAbove(n, parent)
    requires (c.ref.path == n.path ==> c.ref == n) && OnlyNode(Beneath(t, conn, c), n)
    ensures var (was, now, more) := (DrawnAs(t, n), DrawnAs(u, n), Under(u, conn, n));
            [RowOf(u, conn, DepthAt(parent), c)] + Beneath(u, conn, c) ==
            Spliced([RowOf(t, conn, DepthAt(parent), c)], n, was, now, more)
            + Spliced(Beneath(t, conn, c), n, was, now, more)
    decreases |LoadedFrom(t, |parent.path| + 1)|, 1
  {
    var was, now, more := DrawnAs(t, n), DrawnAs(u, n), Under(u, conn, n);
    AboveParent(c.ref, parent, n);
    SplicedOne(RowOf(t, conn, DepthAt(parent), c), n, was, now, more);
    if c.ref != n && StateOf(t, c) == Expanded {
      TurningSplices(t, u, conn, n, c.ref);
    }
  }

  lemma SplicedAt(rows: seq<VisibleNode>, i: nat, now: NodeState, more: seq<VisibleNode>)
    requires i < |rows| && DistinctPaths(rows)
    ensures Spliced(rows, rows[i].ref, rows[i].state, now, more) ==
            rows[..i] + [rows[i].(state := now)] + more + rows[i + 1..]
  {
    hide Spliced;
    SplicedParts(rows[..i], rows[i], rows[i + 1..], now, more);
    assert rows == rows[..i] + [rows[i]] + rows[i + 1..];
  }

  lemma SplicedParts(front: seq<VisibleNode>, row: VisibleNode, back: seq<VisibleNode>, now: NodeState,
                     more: seq<VisibleNode>)
    requires forall j :: 0 <= j < |front| ==> front[j].ref != row.ref
    requires forall j :: 0 <= j < |back| ==> back[j].ref != row.ref
    ensures Spliced(front + [row] + back, row.ref, row.state, now, more) ==
            front + [row.(state := now)] + more + back
  {
    hide Spliced;
    var n, was := row.ref, row.state;
    SplicedJoin(front + [row], back, n, was, now, more);
    SplicedJoin(front, [row], n, was, now, more);
    SplicedOne(row, n, was, now, more);
    SplicedElsewhere(front, n, was, now, more);
    SplicedElsewhere(back, n, was, now, more);
    assert front + ([row.(state := now)] + more) == front + [row.(state := now)] + more;
  }

  /** A row is drawn as its node is, or as a leaf. */
  lemma {:induction false} DrawnState(t: Tree, conn: nat, parent: NodeRef, i: nat)
    requires PathExtending(t) && i < |Preorder(t, conn, parent)|
    ensures var row := Preorder(t, conn, parent)[i]; row.state == Leaf || row.state == DrawnAs(t, row.ref)
    decreases |LoadedFrom(t, |parent.path|)|, 0
  {
    FewerBelow(t, parent);
    DrawnStateAll(t, conn, parent, t.loaded[parent], i);
  }

  lemma {:induction false} DrawnStateAll(t: Tree, conn: nat, parent: NodeRef, children: Children, i: nat)
    requires PathExtending(t) && AllExtend(children, parent) && i < |PreorderAll(t, conn, parent, children)|
    ensures var row := PreorderAll(t, conn, parent, children)[i];
            row.state == Leaf || row.state == DrawnAs(t, row.ref)
    decreases |LoadedFrom(t, |parent.path| + 1)|, |children| + 1
  {
    var c := children[0];
    assert Extends(c.ref, parent);
    var sub := Beneath(t, conn, c);
    if 0 < i <= |sub| {
      assert PreorderAll(t, conn, parent, children)[i] == sub[i - 1];
      DrawnState(t, conn, c.ref, i - 1);
    } else if i > |sub| {
      assert PreorderAll(t, conn, parent, children)[i] == PreorderAll(t, conn, parent, children[1..])[i - 1 - |sub|];
      DrawnStateAll(t, conn, parent, children[1..], i - 1 - |sub|);
    }
  }

  lemma TurningShows(t: Tree, u: Tree, conn: nat, i: nat)
    requires PathExtending(t) && DistinctSiblings(t) && PathExtending(u)
    requires i < |Flatten(t, conn)|
    requires var row := Flatten(t, conn)[i];
             SameElsewhere(t, u, row.ref) && row.state != Expanded && row.state != Leaf
    ensures var rows := Flatten(t, conn);
            Flatten(u, conn) ==
            rows[..i] + [rows[i].(state := DrawnAs(u, rows[i].ref))] + Under(u, conn, rows[i].ref) + rows[i + 1..]
  {
    hide Under, SameElsewhere;
    var rows := Flatten(t, conn);
    var n := rows[i].ref;
    FlatteningIsPreorder(t, conn);
    FlatteningIsPreorder(u, conn);
    DrawnState(t, conn, ROOT, i);
    PreorderIsNeat(t, conn, ROOT);
    PreorderIsBeneath(t, conn, ROOT);
    TurningSplices(t, u, conn, n, ROOT);
    SplicedAt(rows, i, DrawnAs(u, n), Under(u, conn, n));
  }

  // ── a node's own children ───────────────────────────────────────────────

  /** The rows whose path is that long. */
  function Direct(rows: seq<VisibleNode>, length: nat): seq<VisibleNode> {
    if rows == [] then []
    else (if |rows[0].ref.path| == length then [rows[0]] else []) + Direct(rows[1..], length)
  }

  lemma {:induction false} DirectJoin(a: seq<VisibleNode>, b: seq<VisibleNode>, length: nat)
    ensures Direct(a + b, length) == Direct(a, length) + Direct(b, length)
  {
    if a == [] {
      assert a + b == b;
    } else {
      assert (a + b)[1..] == a[1..] + b;
      DirectJoin(a[1..], b, length);
    }
  }

  lemma {:induction false} NoneDirect(rows: seq<VisibleNode>, length: nat)
    requires forall i :: 0 <= i < |rows| ==> |rows[i].ref.path| > length
    ensures Direct(rows, length) == []
  {
    if rows != [] {
      NoneDirect(rows[1..], length);
    }
  }

  /** Each of the rows is that child's. */
  predicate RowsOf(rows: seq<VisibleNode>, children: Children, conn: nat, depth: nat) {
    && |rows| == |children|
    && forall k :: 0 <= k < |rows| ==>
         && rows[k].ref == children[k].ref && rows[k].caption == children[k].caption
         && rows[k].relation == children[k].relation && rows[k].conn == conn && rows[k].depth == depth
         && (!children[k].hasChildren ==> rows[k].state == Leaf)
  }

  lemma RowsOfMore(row: VisibleNode, rows: seq<VisibleNode>, c: TreeNode, children: Children, conn: nat, depth: nat)
    requires RowsOf([row], [c], conn, depth) && RowsOf(rows, children, conn, depth)
    ensures RowsOf([row] + rows, [c] + children, conn, depth)
  {
    var all := [row] + rows;
    assert forall k :: 0 < k < |all| ==> all[k] == rows[k - 1] && ([c] + children)[k] == children[k - 1];
    assert [row][0] == row && [c][0] == c;
  }

  lemma NoRows(conn: nat, depth: nat)
    ensures RowsOf([], [], conn, depth)
  {
  }

  lemma RowOfOne(t: Tree, conn: nat, depth: nat, c: TreeNode)
    ensures RowsOf([RowOf(t, conn, depth, c)], [c], conn, depth)
  {
  }

  /** Beneath a node come its children in order, each with what it shows itself. */
  lemma {:induction false} ChildrenInOrder(t: Tree, conn: nat, parent: NodeRef, children: Children)
    requires PathExtending(t) && AllExtend(children, parent)
    ensures var rows := PreorderAll(t, conn, parent, children);
            && RowsOf(Direct(rows, |parent.path| + 1), children, conn, DepthAt(parent))
            && ((forall k :: 0 <= k < |children| ==> StateOf(t, children[k]) != Expanded) ==>
                  rows == Direct(rows, |parent.path| + 1))
    decreases |children|
  {
    hide RowsOf, RowOf, StateOf;
    if children == [] {
      NoRows(conn, DepthAt(parent));
    } else {
      var c := children[0];
      assert Extends(c.ref, parent);
      var row, sub, rest := RowOf(t, conn, DepthAt(parent), c), Beneath(t, conn, c),
          PreorderAll(t, conn, parent, children[1..]);
      var length := |parent.path| + 1;
      RowRef(t, conn, DepthAt(parent), c);
      PreorderIsBeneath(t, conn, c.ref);
      NoneDirect(sub, length);
      DirectJoin([row] + sub, rest, length);
      DirectJoin([row], sub, length);
      assert Direct([row], length) == [row] by { assert [row][1..] == []; }
      ChildrenInOrder(t, conn, parent, children[1..]);
      RowOfOne(t, conn, DepthAt(parent), c);
      RowsOfMore(row, Direct(rest, length), c, children[1..], conn, DepthAt(parent));
      assert [c] + children[1..] == children;
      assert forall k :: 0 <= k < |children[1..]| ==> children[1..][k] == children[k + 1];
    }
  }

  // ── asking and being answered ───────────────────────────────────────────

  /** A node that is asked about is drawn as being fetched, and nothing else changes. */
  lemma AskingIsShown(t: Tree, conn: nat, i: nat)
    requires PathExtending(t) && DistinctSiblings(t) && i < |Flatten(t, conn)|
    requires var row := Flatten(t, conn)[i]; row.state != Leaf && Toggle(t, row.ref).1 == Load
    ensures var rows := Flatten(t, conn);
            Flatten(Toggle(t, rows[i].ref).0, conn) == rows[i := rows[i].(state := Loading)]
  {
    var rows := Flatten(t, conn);
    var u := Toggle(t, rows[i].ref).0;
    hide Flatten;
    FlatteningIsPreorder(t, conn);
    DrawnState(t, conn, ROOT, i);
    TurningShows(t, u, conn, i);
    var row := rows[i].(state := Loading);
    assert rows[..i] + [row] + [] + rows[i + 1..] == rows[i := row];
  }

  /**
   The answer to a node being fetched opens it: its children's rows come right
   behind its own, in the answer's order and one deeper, and every other row
   stays what and where it was.
   */
  lemma AnAnswerIsShown(t: Tree, conn: nat, i: nat, children: Children) returns (more: seq<VisibleNode>)
    requires PathExtending(t) && DistinctSiblings(t) && i < |Flatten(t, conn)|
    requires var row := Flatten(t, conn)[i]; row.state == Loading && AllExtend(children, row.ref)
    ensures var rows := Flatten(t, conn);
            var n := rows[i].ref;
            var u := FinishLoad(t, n, Success(children));
            && Flatten(u, conn) == rows[..i] + [rows[i].(state := Expanded)] + more + rows[i + 1..]
            && AllBeneath(more, n)
            && RowsOf(Direct(more, |n.path| + 1), children, conn, DepthAt(n))
            && ((forall k :: 0 <= k < |children| ==> StateOf(u, children[k]) != Expanded) ==>
                  RowsOf(more, children, conn, DepthAt(n)))
  {
    hide Flatten, RowsOf;
    var rows := Flatten(t, conn);
    var n := rows[i].ref;
    var u := FinishLoad(t, n, Success(children));
    AnsweredElsewhere(t, n, children);
    TurningShows(t, u, conn, i);
    more := Under(u, conn, n);
    PreorderIsBeneath(u, conn, n);
    ChildrenInOrder(u, conn, n, children);
  }

  lemma AnsweredElsewhere(t: Tree, n: NodeRef, children: Children)
    requires PathExtending(t) && AllExtend(children, n)
    ensures var u := FinishLoad(t, n, Success(children));
            PathExtending(u) && SameElsewhere(t, u, n) && DrawnAs(u, n) == Expanded
  {
    forall r | r in LeafRefs(children)
      ensures AtOrAbove(n, r)
    {
      var i :| 0 <= i < |children| && children[i].ref == r;
      assert Extends(children[i].ref, n);
    }
  }

  /** A child with nothing in it is never asked about. */
  lemma ALeafIsNeverAsked(t: Tree, n: NodeRef, children: Children, k: nat)
    requires AllExtend(children, n) && k < |children| && !children[k].hasChildren
    ensures var u := FinishLoad(t, n, Success(children));
            Toggle(u, children[k].ref) == (u, Local) && Expand(u, children[k].ref) == (u, Local)
  {
    assert Extends(children[k].ref, n);
    assert children[k].ref in LeafRefs(children);
  }

  /** A fetch that failed is said on the node's row, and nothing else changes. */
  lemma AFailureIsShown(t: Tree, conn: nat, i: nat, why: string)
    requires PathExtending(t) && DistinctSiblings(t) && i < |Flatten(t, conn)|
    requires var row := Flatten(t, conn)[i]; row.state == Loading
    ensures var rows := Flatten(t, conn);
            Flatten(FinishLoad(t, rows[i].ref, Failure(why)), conn) == rows[i := rows[i].(state := Failed(why))]
  {
    var rows := Flatten(t, conn);
    var u := FinishLoad(t, rows[i].ref, Failure(why));
    hide Flatten;
    TurningShows(t, u, conn, i);
    var row := rows[i].(state := Failed(why));
    assert rows[..i] + [row] + [] + rows[i + 1..] == rows[i := row];
  }

  // ── new roots ───────────────────────────────────────────────────────────

  /** New roots are drawn one after another, and nothing beneath them. */
  lemma RootsAreShown(roots: Children, conn: nat)
    ensures RowsOf(Flatten(SetRoots(roots), conn), roots, conn, 0)
  {
    var t := SetRoots(roots);
    WalkOpens(t, conn, ROOT, 0, {});
    NoneOpen(t, conn, roots, {} + {ROOT});
  }

  lemma {:induction false} NoneOpen(t: Tree, conn: nat, children: Children, open: set<NodeRef>)
    requires forall n :: n in t.status ==> t.status[n] != Expanded
    ensures RowsOf(WalkAll(t, conn, children, 0, open), children, conn, 0)
    decreases |children|
  {
    if children != [] {
      NoneOpen(t, conn, children[1..], open);
      RowOfOne(t, conn, 0, children[0]);
      RowsOfMore(RowOf(t, conn, 0, children[0]), WalkAll(t, conn, children[1..], 0, open), children[0], children[1..],
                 conn, 0);
      assert [children[0]] + children[1..] == children;
    }
  }
}
