/**
 The object trees of the connections, over whole runs of the store.
 */
module Trees {
  import opened Wrappers
  import opened Store
  import opened Runs
  import opened Frames
  import opened TreeLaws

  /** The tree a connection holds is consistent, and what it shows is the flattening of it. */
  ghost predicate TreeOk(conn: Conn, c: ConnId) {
    Consistent(conn.tree) && conn.view == T.Flatten(conn.tree, c)
  }

  ghost predicate TreesOk(s: State) {
    forall c :: c in s.conns ==> TreeOk(s.conns[c], c)
  }

  lemma EmptyIsOk(c: ConnId)
    ensures Consistent(T.EMPTY) && T.Flatten(T.EMPTY, c) == []
  {
  }

  /** One operation keeps a tree consistent. */
  lemma DoneIsConsistent(t: T.Tree, op: Op)
    requires Consistent(t)
    ensures Consistent(Do(t, op))
  {
    AlwaysConsistent(t, [op]);
    assert [op][1..] == [];
  }

  lemma WithTreeIsOk(s: State, c: ConnId, tree: T.Tree)
    requires TreesOk(s) && c in s.conns && Consistent(tree)
    ensures TreesOk(WithTree(s, c, tree))
  {
    hide Consistent, T.Flatten;
  }

  lemma SameConns(s: State, s': State)
    requires TreesOk(s) && s'.conns == s.conns
    ensures TreesOk(s')
  {
  }

  lemma OneConn(s: State, s': State, c: ConnId, conn: Conn)
    requires TreesOk(s) && TreeOk(conn, c) && s'.conns == s.conns[c := conn]
    ensures TreesOk(s')
  {
    hide TreeOk;
  }

  lemma NewIsOk(status: ConnStatus, c: ConnId)
    ensures TreeOk(NewConn(status), c)
  {
    hide T.Flatten, Consistent;
    EmptyIsOk(c);
  }

  lemma ConnectsOk(s: State, profile: string, c: ConnId)
    requires TreesOk(s)
    ensures TreesOk(ConnectTo(s, profile, c))
  {
    hide TreesOk, TreeOk, Begin, NewConn;
    if c !in s.conns && profile in s.profiles {
      var conn := NewConn(if s.profiles[profile] then Connecting else Broken(NO_DRIVER));
      NewIsOk(Connecting, c);
      NewIsOk(Broken(NO_DRIVER), c);
      OneConn(s, s.(conns := s.conns[c := conn]), c, conn);
      BeginShows(s.(conns := s.conns[c := conn]), Connect(c));
      SameConns(s.(conns := s.conns[c := conn]), ConnectTo(s, profile, c));
    }
  }

  lemma OpensOk(s: State, c: ConnId, node: T.NodeRef, toggle: bool)
    requires TreesOk(s)
    ensures TreesOk(OpenNode(s, c, node, toggle))
  {
    hide Consistent, T.Flatten, TreesOk, T.Toggle, T.Expand, WithTree, Begin, TreeOk;
    if c in s.conns {
      HasTree(s, c);
      var t := s.conns[c].tree;
      if node.path == [] {
        var conn := s.conns[c].(expanded := if toggle then !s.conns[c].expanded else true);
        SameTree(s.conns[c], conn, c);
        OneConn(s, OpenNode(s, c, node, toggle), c, conn);
      } else {
        DoneIsConsistent(t, if toggle then Flipped(node) else Opened(node));
        var tree := if toggle then T.Toggle(t, node).0 else T.Expand(t, node).0;
        WithTreeIsOk(s, c, tree);
        BeginShows(WithTree(s, c, tree), ExpandNode(c, node));
        SameConns(WithTree(s, c, tree), Begin(WithTree(s, c, tree), ExpandNode(c, node)));
      }
    }
  }

  lemma HasTree(s: State, c: ConnId)
    requires TreesOk(s) && c in s.conns
    ensures Consistent(s.conns[c].tree) && TreeOk(s.conns[c], c)
  {
  }

  lemma SameTree(conn: Conn, conn': Conn, c: ConnId)
    requires TreeOk(conn, c) && conn'.tree == conn.tree && conn'.view == conn.view
    ensures TreeOk(conn', c)
  {
  }

  lemma FinishesOk(s: State, c: ConnId, node: T.NodeRef, result: Result<T.Children, string>)
    requires TreesOk(s) && c in s.conns
    ensures TreesOk(WithTree(s, c, T.FinishLoad(s.conns[c].tree, node, result)))
  {
    hide Consistent, TreesOk, T.FinishLoad, WithTree, TreeOk;
    HasTree(s, c);
    DoneIsConsistent(s.conns[c].tree, Finished(node, result));
    WithTreeIsOk(s, c, T.FinishLoad(s.conns[c].tree, node, result));
  }

  lemma AbandonsOk(s: State, o: Owner, reason: string)
    requires TreesOk(s)
    ensures TreesOk(Abandon(s, o, reason))
  {
    hide TreesOk, WithTree, Touches, T.FinishLoad;
    if o.OfNode? && o.conn in s.conns {
      FinishesOk(s, o.conn, o.node, Failure(reason));
    } else if o.OfConnection? && o.conn in s.conns && s.conns[o.conn].status == Connecting {
      var conn := s.conns[o.conn].(status := Broken(reason));
      HasTree(s, o.conn);
      SameTree(s.conns[o.conn], conn, o.conn);
      OneConn(s, Abandon(s, o, reason), o.conn, conn);
    } else if !o.OfNode? && !o.OfConnection? {
      AbandonsElsewhere(s, o, reason);
      SameConns(s, Abandon(s, o, reason));
    }
  }

  lemma AbandonsElsewhere(s: State, o: Owner, reason: string)
    requires !o.OfNode? && !o.OfConnection?
    ensures Abandon(s, o, reason).conns == s.conns
  {
    hide Abandon;
    AbandonTouches(s, o, reason);
  }

  lemma CancelsOk(s: State, id: BusyId)
    requires TreesOk(s)
    ensures TreesOk(Cancel(s, id))
  {
    hide TreesOk, Abandon, RowOf, DropAll;
    DropShows(s, {id});
    SameConns(s, Drop(s, id));
    if RowOf(s.busy, id).Some? {
      AbandonsOk(Drop(s, id), RowOf(s.busy, id).value.owner, CANCELLED);
    }
  }

  lemma DisconnectsOk(s: State, c: ConnId)
    requires TreesOk(s)
    ensures TreesOk(Disconnect(s, c))
  {
    hide Consistent, T.Flatten, Disconnect, Orphans, Named, CloseConn;
    DisconnectShows(s, c);
    EmptyIsOk(c);
  }

  lemma ApplyKeepsTrees(s: State, a: Action, issuer: Issuer)
    requires TreesOk(s)
    ensures TreesOk(Apply(s, a, issuer))
  {
    hide TreesOk, ConnectTo, OpenNode, Disconnect, Cancel, Apply, Touches, RowOf;
    Applied(s, a, issuer);
    match a {
      case DoConnect(profile, c) => ConnectsOk(s, profile, c);
      case DoToggleNode(c, node) => OpensOk(s, c, node, true);
      case DoExpandNode(c, node) => OpensOk(s, c, node, false);
      case DoDisconnect(c) => DisconnectsOk(s, c);
      case DoCancel(id) => CancelsOk(s, id);
      case _ =>
        ApplyTouches(s, a, issuer);
        TouchesNoConn(s, Apply(s, a, issuer), Subject(s, a));
        SameConns(s, Apply(s, a, issuer));
    }
  }

  lemma TouchesNoConn(s: State, s': State, o: Owner)
    requires Touches(s, s', o) && !o.OfConnection? && !o.OfNode?
    ensures s'.conns == s.conns
  {
  }

  lemma DiesOk(s: State, c: ConnId)
    requires TreesOk(s)
    ensures TreesOk(SessionDied(s, c))
  {
    hide Consistent, T.Flatten;
  }

  lemma RootedIsOk(conn: Conn, c: ConnId, roots: T.Children)
    requires conn.tree == T.SetRoots(roots) && conn.view == T.Flatten(conn.tree, c)
    ensures TreeOk(conn, c)
  {
    hide T.Flatten, Consistent;
    EmptyIsOk(c);
    DoneIsConsistent(T.EMPTY, Rooted(roots));
  }

  lemma FailedToConnect(s: State, c: ConnId, e: AppError)
    requires TreesOk(s)
    ensures TreesOk(OnConnected(s, c, Failure(e)))
  {
    hide TreesOk, TreeOk, Message;
    if c in s.conns {
      var conn := s.conns[c].(status := Broken(Message(e)));
      HasTree(s, c);
      SameTree(s.conns[c], conn, c);
      OneConn(s, s.(conns := s.conns[c := conn]), c, conn);
    }
  }

  lemma ConnectedAtLast(s: State, c: ConnId, out: ConnectOutput)
    requires TreesOk(s)
    ensures TreesOk(OnConnected(s, c, Success(out)))
  {
    hide TreesOk, TreeOk, T.Flatten, T.SetRoots;
    if c in s.conns && s.conns[c].status == Connecting {
      var tree := T.SetRoots(out.roots);
      var conn := s.conns[c].(status := Open, session := Some(out.session), access := out.access, tree := tree,
                              view := T.Flatten(tree, c));
      RootedIsOk(conn, c, out.roots);
      OneConn(s, s.(conns := s.conns[c := conn]), c, conn);
    } else {
      SameConns(s, s.(outside := s.outside.(closed := s.outside.closed + [out.session.id])));
    }
  }

  lemma ExpandedOk(s: State, c: ConnId, node: T.NodeRef, children: Result<T.Children, AppError>)
    requires TreesOk(s)
    ensures TreesOk(OnExpanded(s, c, node, children))
  {
    hide TreesOk, SessionDied, WithTree, T.FinishLoad, Message;
    var outcome := match children case Success(v) => Success(v) case Failure(e) => Failure(Message(e));
    var finished := if c in s.conns then WithTree(s, c, T.FinishLoad(s.conns[c].tree, node, outcome)) else s;
    if c in s.conns {
      FinishesOk(s, c, node, outcome);
    }
    DiesOk(finished, c);
  }

  lemma HandleKeepsTrees(s: State, e: Event)
    requires TreesOk(s)
    ensures TreesOk(Handle(s, e))
  {
    hide TreesOk, Handle, OnConnected, OnExpanded, OnPreviewed, SessionDied, Told, DropAll, Touches;
    Handled(s, e);
    if e.Recorded? {
      HandleTouches(s, e);
      TouchesNoConn(s, Handle(s, e), About(e));
      SameConns(s, Handle(s, e));
      return;
    }
    DropShows(s, {e.busy});
    SameConns(s, Drop(s, e.busy));
    match e {
      case Connected(c, busy, Success(out)) => ConnectedAtLast(Drop(s, busy), c, out);
      case Connected(c, busy, Failure(why)) => FailedToConnect(Drop(s, busy), c, why);
      case Expanded(c, node, busy, children) => ExpandedOk(Drop(s, busy), c, node, children);
      case Previewed(rel, page, busy, rows) =>
        var told := Told(Drop(s, busy), rel, page, rows);
        PreviewedTouches(s, e);
        TouchesNoConn(s, told, OfPreview(rel));
        SameConns(s, told);
        DiesOk(told, rel.conn);
      case _ =>
        HandleTouches(s, e);
        TouchesNoConn(s, Handle(s, e), About(e));
        SameConns(s, Handle(s, e));
    }
  }

  lemma {:induction false} RunKeepsTrees(w: World, steps: seq<Step>)
    requires TreesOk(w.s) && Legal(w, steps)
    ensures TreesOk(After(w, steps).s)
    decreases |steps|
  {
    hide TreesOk, Apply, Handle, RepliesTo;
    if steps != [] {
      match steps[0] {
        case Acted =>
          SameConns(w.s, w.s.(applied := w.s.applied + 1));
          ApplyKeepsTrees(w.s.(applied := w.s.applied + 1), w.queue[0].0, w.queue[0].1);
        case Received => HandleKeepsTrees(w.s, w.mailbox[0]);
        case _ =>
      }
      RunKeepsTrees(Next(w, steps[0]), steps[1..]);
    }
  }

  /**
   In every state of every run, whatever came late or was cancelled: the tree of
   every connection is consistent, and what the connection shows is that tree's
   flattening.
   */
  lemma TreesAreConsistent(g: Wiring, steps: seq<Step>)
    requires Legal(Begun(g), steps)
    ensures TreesOk(After(Begun(g), steps).s)
  {
    hide Legal, After;
    RunKeepsTrees(Begun(g), steps);
  }
}
