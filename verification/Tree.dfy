/**
 Lazy expansion of the object tree, and its flattening: crates/sqlake-app/src/tree.rs.

 `Tree` is the state as a value, with what each operation makes of it.
 `TreeState` is the object that holds it and changes it in place.
 */
module Tree {
  import opened Wrappers

  datatype NodeKind = Root | Catalog | Namespace | Relation

  datatype NodeRef = NodeRef(kind: NodeKind, path: seq<string>)

  const ROOT := NodeRef(Root, [])

  datatype TreeNode = TreeNode(ref: NodeRef, caption: string, hasChildren: bool, relation: Option<string>)

  datatype NodeState = Leaf | Collapsed | Loading | Expanded | Failed(why: string)

  datatype VisibleNode =
    VisibleNode(conn: nat, depth: nat, caption: string, ref: NodeRef, relation: Option<string>, state: NodeState)

  /** Whether the caller has to fetch the children, or has them. */
  datatype Toggled = Load | Local

  type Children = seq<TreeNode>

  datatype Tree = Tree(loaded: map<NodeRef, Children>, status: map<NodeRef, NodeState>)

  const EMPTY := Tree(map[], map[])

  const MAX_DEPTH: nat := 0xFFFF

  function Deeper(depth: nat): nat {
    if depth < MAX_DEPTH then depth + 1 else MAX_DEPTH
  }

  // ── what each operation makes of the state ──────────────────────────────

  function LeafRefs(children: Children): set<NodeRef> {
    set c | c in children && !c.hasChildren :: c.ref
  }

  function WithLeaves(status: map<NodeRef, NodeState>, children: Children): map<NodeRef, NodeState> {
    status + map n | n in LeafRefs(children) :: Leaf
  }

  lemma OneMoreLeaf(status: map<NodeRef, NodeState>, children: Children, i: nat)
    requires i < |children|
    ensures WithLeaves(status, children[..i + 1]) ==
            if children[i].hasChildren then WithLeaves(status, children[..i])
            else WithLeaves(status, children[..i])[children[i].ref := Leaf]
  {
    assert children[..i + 1] == children[..i] + [children[i]];
    assert LeafRefs(children[..i + 1]) ==
           LeafRefs(children[..i]) + if children[i].hasChildren then {} else {children[i].ref};
  }

  function SetRoots(roots: Children): Tree {
    Tree(map[ROOT := roots], WithLeaves(map[], roots))
  }

  function Toggle(t: Tree, n: NodeRef): (Tree, Toggled) {
    var state := if n in t.status then Some(t.status[n]) else None;
    if state == Some(Loading) || state == Some(Leaf) then (t, Local)
    else if state == Some(Expanded) then (t.(status := t.status[n := Collapsed]), Local)
    else if n in t.loaded && !(state.Some? && state.value.Failed?) then
      (t.(status := t.status[n := Expanded]), Local)
    else (t.(status := t.status[n := Loading]), Load)
  }

  function Expand(t: Tree, n: NodeRef): (Tree, Toggled) {
    if n in t.status && t.status[n] == Expanded then (t, Local) else Toggle(t, n)
  }

  /** A node is one some parent's children name, or the root. */
  predicate Contains(t: Tree, n: NodeRef) {
    n.path == [] || exists p :: p in t.loaded && exists i :: 0 <= i < |t.loaded[p]| && t.loaded[p][i].ref == n
  }

  function FinishLoad(t: Tree, n: NodeRef, result: Result<Children, string>): Tree {
    match result
    case Success(children) =>
      Tree(t.loaded[n := children], WithLeaves(t.status, children)[n := Expanded])
    case Failure(why) =>
      Tree(t.loaded - {n}, t.status[n := Failed(why)])
  }

  function StateOf(t: Tree, node: TreeNode): NodeState {
    if !node.hasChildren then Leaf
    else if node.ref in t.status then t.status[node.ref]
    else Collapsed
  }

  function RowOf(t: Tree, conn: nat, depth: nat, node: TreeNode): VisibleNode {
    VisibleNode(conn, depth, node.caption, node.ref, node.relation, StateOf(t, node))
  }

  /** The rows beneath `parent`, where the nodes in `open` are being walked already. */
  function Walk(t: Tree, conn: nat, parent: NodeRef, depth: nat, open: set<NodeRef>): seq<VisibleNode>
    decreases |t.loaded.Keys - open|, 0
  {
    if parent !in t.loaded || parent in open then []
    else
      Shrinks(t.loaded.Keys, open, parent);
      WalkAll(t, conn, t.loaded[parent], depth, open + {parent})
  }

  function WalkAll(t: Tree, conn: nat, children: Children, depth: nat, open: set<NodeRef>): seq<VisibleNode>
    decreases |t.loaded.Keys - open|, |children| + 1
  {
    if children == [] then []
    else
      [RowOf(t, conn, depth, children[0])]
      + (if StateOf(t, children[0]) == Expanded then Walk(t, conn, children[0].ref, Deeper(depth), open) else [])
      + WalkAll(t, conn, children[1..], depth, open)
  }

  lemma WalkOpens(t: Tree, conn: nat, parent: NodeRef, depth: nat, open: set<NodeRef>)
    ensures Walk(t, conn, parent, depth, open) ==
            if parent !in t.loaded || parent in open then []
            else WalkAll(t, conn, t.loaded[parent], depth, open + {parent})
  {
  }

  lemma WalkStep(t: Tree, conn: nat, children: Children, i: nat, depth: nat, open: set<NodeRef>)
    requires i < |children|
    ensures WalkAll(t, conn, children[i..], depth, open) ==
            [RowOf(t, conn, depth, children[i])]
            + (if StateOf(t, children[i]) == Expanded then Walk(t, conn, children[i].ref, Deeper(depth), open) else [])
            + WalkAll(t, conn, children[i + 1..], depth, open)
  {
    hide Walk, StateOf, RowOf;
    assert children[i..][1..] == children[i + 1..];
  }

  lemma WalkNone(t: Tree, conn: nat, children: Children, depth: nat, open: set<NodeRef>)
    requires children == []
    ensures WalkAll(t, conn, children, depth, open) == []
  {
  }

  lemma Shrinks(keys: set<NodeRef>, open: set<NodeRef>, parent: NodeRef)
    requires parent in keys && parent !in open
    ensures |keys - (open + {parent})| < |keys - open|
  {
    assert keys - open == (keys - (open + {parent})) + {parent};
  }

  function Flatten(t: Tree, conn: nat): seq<VisibleNode> {
    Walk(t, conn, ROOT, 0, {})
  }

  // ── the object ──────────────────────────────────────────────────────────

  class TreeState {
    var loaded: map<NodeRef, Children>
    var status: map<NodeRef, NodeState>

    function Value(): Tree
      reads this
    {
      Tree(loaded, status)
    }

    constructor ()
      ensures Value() == EMPTY
    {
      loaded, status := map[], map[];
    }

    /** Leaves are recorded so that toggling one is not a fetch. */
    method RecordLeaves(children: Children)
      modifies this`status
      ensures status == WithLeaves(old(status), children)
    {
      var i := 0;
      ghost var before := status;
      while i < |children|
        invariant i <= |children|
        invariant status == WithLeaves(before, children[..i])
      {
        OneMoreLeaf(before, children, i);
        if !children[i].hasChildren {
          status := status[children[i].ref := Leaf];
        }
        i := i + 1;
      }
      assert children[..i] == children;
    }

    method Install(roots: Children)
      modifies this
      ensures Value() == SetRoots(roots)
    {
      loaded := map[];
      status := map[];
      RecordLeaves(roots);
      loaded := loaded[ROOT := roots];
    }

    method Flip(node: NodeRef) returns (answer: Toggled)
      modifies this`status
      ensures (Value(), answer) == Toggle(old(Value()), node)
    {
      if node in status {
        var state := status[node];
        if state == Loading || state == Leaf {
          return Local;
        }
        if state == Expanded {
          status := status[node := Collapsed];
          return Local;
        }
      }
      if node in loaded && !(node in status && status[node].Failed?) {
        status := status[node := Expanded];
        return Local;
      }
      status := status[node := Loading];
      return Load;
    }

    method Open(node: NodeRef) returns (answer: Toggled)
      modifies this`status
      ensures (Value(), answer) == Expand(old(Value()), node)
    {
      if node in status && status[node] == Expanded {
        return Local;
      }
      answer := Flip(node);
    }

    method Finish(node: NodeRef, result: Result<Children, string>)
      modifies this
      ensures Value() == FinishLoad(old(Value()), node, result)
    {
      match result {
        case Success(children) =>
          RecordLeaves(children);
          loaded := loaded[node := children];
          status := status[node := Expanded];
        case Failure(why) =>
          loaded := loaded - {node};
          status := status[node := Failed(why)];
      }
    }

    /** Pushes the rows beneath `parent`, and leaves `open` as it was. */
    method WalkInto(conn: nat, parent: NodeRef, depth: nat, open: set<NodeRef>, out: seq<VisibleNode>)
      returns (open': set<NodeRef>, out': seq<VisibleNode>)
      ensures open' == open && out' == out + Walk(Value(), conn, parent, depth, open)
      decreases |loaded.Keys - open|
    {
      hide Walk, WalkAll, StateOf, RowOf;
      WalkOpens(Value(), conn, parent, depth, open);
      open', out' := open, out;
      if parent !in loaded || parent in open {
        return;
      }
      Shrinks(loaded.Keys, open, parent);
      var children := loaded[parent];
      open' := open + {parent};
      var i := 0;
      ghost var rows := WalkAll(Value(), conn, children, depth, open + {parent});
      assert children[0..] == children;
      while i < |children|
        invariant i <= |children|
        invariant open' == open + {parent}
        invariant out + rows == out' + WalkAll(Value(), conn, children[i..], depth, open + {parent})
      {
        var child := children[i];
        WalkStep(Value(), conn, children, i, depth, open');
        var state := StateOf(Value(), child);
        out' := out' + [RowOf(Value(), conn, depth, child)];
        if state == Expanded {
          open', out' := WalkInto(conn, child.ref, Deeper(depth), open', out');
        }
        i := i + 1;
      }
      WalkNone(Value(), conn, children[i..], depth, open');
      open' := open' - {parent};
      assert open' == open;
    }

    method View(conn: nat) returns (rows: seq<VisibleNode>)
      ensures rows == Flatten(Value(), conn)
    {
      var open: set<NodeRef>;
      open, rows := WalkInto(conn, ROOT, 0, {}, []);
    }
  }
}
