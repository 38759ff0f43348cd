/**
 What is asked for and what is shown for it: each kind of request together with
 the reply to it, whatever the state it is made in.
 */
module Exchanges {
  import opened Wrappers
  import opened Store
  import opened Frames

  /** Exactly this task was begun. */
  predicate Asks(s: State, s': State, task: Task) {
    && s'.outside.spawned == s.outside.spawned[s.nextId := task] && s'.nextId == s.nextId + 1
    && s.nextId in s'.tasks && s'.tasks[s.nextId] == task
  }

  /** Nothing was begun. */
  predicate AsksNothing(s: State, s': State) {
    s'.outside.spawned == s.outside.spawned && s'.nextId == s.nextId
  }

  /** What people are told of an error. */
  function Says(e: AppError): string {
    match e case SessionClosed => "connection is closed" case Other(message) => message
  }

  function Shown<V>(r: Result<V, AppError>): LoadState<V> {
    match r case Success(v) => Ready(v) case Failure(e) => Failed(Says(e))
  }

  lemma BeginAsks(s: State, s': State, task: Task)
    requires s'.outside.spawned == s.outside.spawned && s'.nextId == s.nextId
    ensures Asks(s, Begin(s', task), task)
  {
  }

  // ── definitions ─────────────────────────────────────────────────────────

  /** A definition that is not there, has failed, or is asked for anew is fetched, and what comes is shown. */
  lemma ADefinition(s: State, rel: Relation, refresh: bool, issuer: Issuer, detail: Result<string, AppError>)
    requires SessionOf(s, rel.conn).Some? && rel.table != []
    ensures var s1 := Apply(s, DoDescribe(rel, refresh), issuer);
            if rel in s.definitions && !refresh && !s.definitions[rel].Failed? then s1 == s
            else
              && Asks(s, s1, DescribeTable(rel)) && rel in s1.definitions && s1.definitions[rel] == Loading
              && var s2 := Handle(s1, Described(rel, s.nextId, detail));
                 rel in s2.definitions && s2.definitions[rel] == Shown(detail)
  {
    hide Apply, Handle, Asks, Describe;
    Applied(s, DoDescribe(rel, refresh), issuer);
    DescribingShows(s, rel, refresh);
    DescribedShows(Describe(s, rel, refresh), rel, s.nextId, detail);
  }

  lemma DescribingShows(s: State, rel: Relation, refresh: bool)
    requires SessionOf(s, rel.conn).Some? && rel.table != []
    ensures var s1 := Describe(s, rel, refresh);
            if rel in s.definitions && !refresh && !s.definitions[rel].Failed? then s1 == s
            else Asks(s, s1, DescribeTable(rel)) && rel in s1.definitions && s1.definitions[rel] == Loading
  {
    hide Except, OwnedBy;
  }

  lemma DescribedShows(s: State, rel: Relation, busy: BusyId, detail: Result<string, AppError>)
    ensures var s' := Handle(s, Described(rel, busy, detail));
            rel in s.definitions ==> rel in s'.definitions && s'.definitions[rel] == Shown(detail)
  {
    hide Except;
  }

  // ── the library ─────────────────────────────────────────────────────────

  /** The words are remembered, the rows shown stay while there are some, and only the answer to the words is shown. */
  lemma ASearch(s: State, terms: string, issuer: Issuer, entries: Result<seq<string>, AppError>, other: string)
    requires other != terms
    ensures var s1 := Apply(s, DoSearch(terms), issuer);
            if !s.library then
              s1.history == History(terms, Failed("this session is not keeping anything")) && AsksNothing(s, s1)
            else
              && Asks(s, s1, Searching(terms)) && s1.history.terms == terms
              && (if s.history.data.Ready? then s1.history.data == s.history.data else s1.history.data == Loading)
              && Handle(s1, Searched(s.nextId, terms, entries)).history == History(terms, Shown(entries))
              && Handle(s1, Searched(s.nextId, other, entries)).history == s1.history
  {
    hide Apply, Handle, Shown, Asks, AsksNothing, SearchHistory;
    var s1 := Apply(s, DoSearch(terms), issuer);
    Applied(s, DoSearch(terms), issuer);
    SearchingShows(s, terms);
    SearchedShows(s1, s.nextId, terms, entries);
    SearchedShows(s1, s.nextId, other, entries);
  }

  lemma SearchingShows(s: State, terms: string)
    ensures var s1 := SearchHistory(s, terms);
            if !s.library then
              s1.history == History(terms, Failed("this session is not keeping anything")) && AsksNothing(s, s1)
            else
              && Asks(s, s1, Searching(terms)) && s1.history.terms == terms
              && (if s.history.data.Ready? then s1.history.data == s.history.data else s1.history.data == Loading)
  {
    hide Except, OwnedBy;
  }

  lemma SearchedShows(s: State, busy: BusyId, terms: string, entries: Result<seq<string>, AppError>)
    ensures Handle(s, Searched(busy, terms, entries)).history ==
            if s.history.terms == terms then History(terms, Shown(entries)) else s.history
  {
    hide Except;
  }

  /** Reading the templates, or writing one and reading them: what was written wrong is said beside the list. */
  lemma TheTemplates(s: State, writing: bool, issuer: Issuer, wrote: Option<string>, list: Result<seq<string>,
                     AppError>)
    ensures var s1 := Apply(s, if writing then DoWriteTemplate else DoLoadTemplates, issuer);
            if !s.library then
              && AsksNothing(s, s1) && s1.templates.data == Failed("this session is not keeping anything")
              && (writing ==> s1.templates.failed == Some("this session is not keeping anything"))
              && (!writing ==> s1.templates.failed == s.templates.failed)
            else
              && Asks(s, s1, Library) && s1.templates.failed == None
              && s1.templates.data == (if s.templates.data.Ready? then s.templates.data else Loading)
              && Handle(s1, LibraryAnswered(s.nextId, wrote, list)).templates == Templates(Shown(list), wrote)
  {
    hide Apply, Handle, Asks, AsksNothing, WithLibrary;
    Applied(s, if writing then DoWriteTemplate else DoLoadTemplates, issuer);
    WritingShows(s, writing);
    LibraryShows(WithLibrary(s, writing), s.nextId, wrote, list);
  }

  lemma WritingShows(s: State, writing: bool)
    ensures var s1 := WithLibrary(s, writing);
            if !s.library then
              && AsksNothing(s, s1) && s1.templates.data == Failed("this session is not keeping anything")
              && (writing ==> s1.templates.failed == Some("this session is not keeping anything"))
              && (!writing ==> s1.templates.failed == s.templates.failed)
            else
              && Asks(s, s1, Library) && s1.templates.failed == None
              && s1.templates.data == (if s.templates.data.Ready? then s.templates.data else Loading)
  {
  }

  lemma LibraryShows(s: State, busy: BusyId, wrote: Option<string>, list: Result<seq<string>, AppError>)
    ensures Handle(s, LibraryAnswered(busy, wrote, list)).templates == Templates(Shown(list), wrote)
  {
    hide Except;
  }

  // ── connections ─────────────────────────────────────────────────────────

  /** A listed profile with a driver is connected to; what comes is a session and its roots, or why not. */
  lemma AConnection(s: State, profile: string, c: ConnId, issuer: Issuer, reply: Result<ConnectOutput, AppError>)
    ensures var s1 := Apply(s, DoConnect(profile, c), issuer);
            if c in s.conns || profile !in s.profiles then s1 == s
            else if !s.profiles[profile] then
              && AsksNothing(s, s1) && c in s1.conns && s1.conns[c].session.None?
              && s1.conns[c].status == Broken("unknown driver")
            else
              && Asks(s, s1, Connect(c)) && c in s1.conns
              && s1.conns[c].status == Connecting && s1.conns[c].session.None?
              && var s2 := Handle(s1, Connected(c, s.nextId, reply));
                 c in s2.conns
                 && match reply
                    case Failure(e) => s2.conns[c].status == Broken(Says(e)) && s2.conns[c].session.None?
                    case Success(out) =>
                      && s2.conns[c].status == Open && s2.conns[c].session == Some(out.session)
                      && s2.conns[c].access == out.access
                      && s2.conns[c].tree.loaded == map[T.ROOT := out.roots]
                      && s2.conns[c].view == T.Flatten(s2.conns[c].tree, c)
  {
    hide Apply, Handle, Asks, AsksNothing, ConnectTo, T.Flatten, Says;
    Applied(s, DoConnect(profile, c), issuer);
    ConnectingShows(s, profile, c);
    if c !in s.conns && profile in s.profiles && s.profiles[profile] {
      ConnectedShows(ConnectTo(s, profile, c), c, s.nextId, reply);
    }
  }

  lemma ConnectingShows(s: State, profile: string, c: ConnId)
    ensures var s1 := ConnectTo(s, profile, c);
            if c in s.conns || profile !in s.profiles then s1 == s
            else if !s.profiles[profile] then
              && AsksNothing(s, s1) && c in s1.conns && s1.conns[c].session.None?
              && s1.conns[c].status == Broken("unknown driver")
            else
              && Asks(s, s1, Connect(c)) && c in s1.conns
              && s1.conns[c].status == Connecting && s1.conns[c].session.None?
  {
    hide Begin, Asks, AsksNothing, NewConn;
    if c in s.conns || profile !in s.profiles {
      return;
    }
    var status := if s.profiles[profile] then Connecting else Broken("unknown driver");
    var first := s.(conns := s.conns[c := NewConn(status)]);
    NewConnIs(status);
    assert first.conns[c] == NewConn(status);
    if s.profiles[profile] {
      BeginAsks(s, first, Connect(c));
      BeginShows(first, Connect(c));
      assert ConnectTo(s, profile, c) == Begin(first, Connect(c));
    } else {
      NothingAsked(s, first);
      assert ConnectTo(s, profile, c) == first;
    }
  }

  lemma NewConnIs(status: ConnStatus)
    ensures NewConn(status).status == status && NewConn(status).session.None?
  {
  }

  lemma NothingAsked(s: State, s': State)
    requires s'.outside.spawned == s.outside.spawned && s'.nextId == s.nextId
    ensures AsksNothing(s, s')
  {
  }

  lemma ConnectedShows(s: State, c: ConnId, busy: BusyId, reply: Result<ConnectOutput, AppError>)
    requires c in s.conns && s.conns[c].status == Connecting && s.conns[c].session.None?
    ensures var s2 := Handle(s, Connected(c, busy, reply));
            c in s2.conns
            && match reply
               case Failure(e) => s2.conns[c].status == Broken(Says(e)) && s2.conns[c].session.None?
               case Success(out) =>
                 && s2.conns[c].status == Open && s2.conns[c].session == Some(out.session)
                 && s2.conns[c].access == out.access
                 && s2.conns[c].tree.loaded == map[T.ROOT := out.roots]
                 && s2.conns[c].view == T.Flatten(s2.conns[c].tree, c)
  {
    hide Handle, DropAll, T.Flatten, T.WithLeaves;
    DropShows(s, {busy});
    Handled(s, Connected(c, busy, reply));
    SameConns(s, Drop(s, busy), c, reply);
  }

  lemma SameConns(s: State, s': State, c: ConnId, reply: Result<ConnectOutput, AppError>)
    requires c in s.conns && s'.conns == s.conns && s.conns[c].status == Connecting && s.conns[c].session.None?
    ensures var s2 := OnConnected(s', c, reply);
            c in s2.conns
            && match reply
               case Failure(e) => s2.conns[c].status == Broken(Says(e)) && s2.conns[c].session.None?
               case Success(out) =>
                 && s2.conns[c].status == Open && s2.conns[c].session == Some(out.session)
                 && s2.conns[c].access == out.access
                 && s2.conns[c].tree.loaded == map[T.ROOT := out.roots]
                 && s2.conns[c].view == T.Flatten(s2.conns[c].tree, c)
  {
    hide T.Flatten, T.WithLeaves;
  }

  /** A session that comes when nobody is opening one is closed, and nothing else is shown. */
  lemma ASessionTooLate(s: State, c: ConnId, busy: BusyId, out: ConnectOutput)
    requires c !in s.conns || s.conns[c].status != Connecting
    ensures var s' := Handle(s, Connected(c, busy, Success(out)));
            s'.conns == s.conns && s'.outside.closed == s.outside.closed + [out.session.id]
  {
    hide Except;
  }

  /** A disconnection closes the session there is and fails what still ran on it, and nothing of another connection. */
  lemma ADisconnection(s: State, c: ConnId, issuer: Issuer)
    requires c in s.conns
    ensures var s' := Apply(s, DoDisconnect(c), issuer);
            && c in s'.conns && s'.conns[c].status == Closed && s'.conns[c].session.None?
            && s'.conns[c].tree == T.EMPTY && s'.conns[c].view == []
            && s'.outside.closed ==
               s.outside.closed + (if s.conns[c].session.Some? then [s.conns[c].session.value.id] else [])
            && (forall q :: q in s.queries && !RunsOn(s, q, c) ==> q in s'.queries && s'.queries[q] == s.queries[q])
            && (forall i, q :: 0 <= i < |s.busy| && s.busy[i].owner == OfQuery(q) && RunsOn(s, q, c) ==>
                  q in s'.queries && s'.queries[q].data == Failed("the connection was closed"))
            && (forall rel :: rel in s.previews && rel.conn != c ==>
                  rel in s'.previews && s'.previews[rel] == s.previews[rel])
  {
    hide Disconnect, Orphans, Named, SameBut;
    Applied(s, DoDisconnect(c), issuer);
    DisconnectShows(s, c);
    ClosingCloses(s, c);
    OnlyItsOwn(s, c);
  }

  predicate RunsOn(s: State, q: QueryId, c: ConnId) {
    q in s.queries && s.queries[q].conn == c
  }

  lemma ClosingCloses(s: State, c: ConnId)
    requires c in s.conns
    ensures CloseConn(s, c).outside.closed ==
            s.outside.closed + (if s.conns[c].session.Some? then [s.conns[c].session.value.id] else [])
  {
    assert s.outside.closed + [] == s.outside.closed;
  }

  lemma OnlyItsOwn(s: State, c: ConnId)
    ensures forall q :: q in s.queries && s.queries[q].conn != c ==> !Named(Orphans(CloseConn(s, c), s.busy, c), q)
    ensures forall i, q :: 0 <= i < |s.busy| && s.busy[i].owner == OfQuery(q) && RunsOn(s, q, c) ==>
              Named(Orphans(CloseConn(s, c), s.busy, c), q)
  {
    hide CloseConn;
    CloseConnKeeps(s, c);
    OrphansBelong(CloseConn(s, c), s.busy, c);
    forall i, q | 0 <= i < |s.busy| && s.busy[i].owner == OfQuery(q) && RunsOn(s, q, c)
      ensures Named(Orphans(CloseConn(s, c), s.busy, c), q)
    {
      assert s.busy[i] in s.busy && BelongsTo(CloseConn(s, c), s.busy[i].owner, c);
    }
  }

  // ── nodes ───────────────────────────────────────────────────────────────

  /** The connection's own row opens and closes without asking anybody. */
  lemma TheConnectionsRow(s: State, c: ConnId, node: T.NodeRef, issuer: Issuer)
    requires c in s.conns && node.path == []
    ensures Apply(s, DoToggleNode(c, node), issuer) ==
            s.(conns := s.conns[c := s.conns[c].(expanded := !s.conns[c].expanded)])
    ensures Apply(s, DoExpandNode(c, node), issuer) == s.(conns := s.conns[c := s.conns[c].(expanded := true)])
  {
  }

  /** A node whose children are not there, and that is not known to be a leaf or on its way, is fetched. */
  predicate Unfetched(t: T.Tree, node: T.NodeRef) {
    && (node in t.status ==> t.status[node].Failed? || (t.status[node].Collapsed? && node !in t.loaded))
    && (node !in t.status ==> node !in t.loaded)
  }

  /** Opening such a node asks for its children, and shows that. */
  lemma ANode(s: State, c: ConnId, node: T.NodeRef, toggle: bool, issuer: Issuer)
    requires c in s.conns && s.conns[c].session.Some? && node.path != [] && T.Contains(s.conns[c].tree, node)
    requires Unfetched(s.conns[c].tree, node)
    ensures var s1 := Apply(s, if toggle then DoToggleNode(c, node) else DoExpandNode(c, node), issuer);
            && Asks(s, s1, ExpandNode(c, node)) && c in s1.conns
            && s1.conns[c].tree == s.conns[c].tree.(status := s.conns[c].tree.status[node := T.Loading])
            && s1.conns[c].view == T.Flatten(s1.conns[c].tree, c)
  {
    hide T.Flatten, T.Contains, Begin, Asks;
    var loading := WithTree(s, c, s.conns[c].tree.(status := s.conns[c].tree.status[node := T.Loading]));
    BeginAsks(s, loading, ExpandNode(c, node));
    BeginShows(loading, ExpandNode(c, node));
  }

  /** A node that is there, open or closed, is closed or opened where it is. */
  lemma AFetchedNode(s: State, c: ConnId, node: T.NodeRef, issuer: Issuer)
    requires c in s.conns && s.conns[c].session.Some? && node.path != [] && T.Contains(s.conns[c].tree, node)
    requires var t := s.conns[c].tree;
             node in t.loaded && node in t.status && (t.status[node].Expanded? || t.status[node].Collapsed?)
    ensures var t := s.conns[c].tree;
            var s1 := Apply(s, DoToggleNode(c, node), issuer);
            && AsksNothing(s, s1) && c in s1.conns
            && s1.conns[c].tree ==
               t.(status := t.status[node := if t.status[node].Expanded? then T.Collapsed else T.Expanded])
            && s1.conns[c].view == T.Flatten(s1.conns[c].tree, c)
  {
    hide T.Flatten, T.Contains, Apply, T.Toggle, Begin, AsksNothing, WithTree;
    var t := s.conns[c].tree;
    var t' := t.(status := t.status[node := if t.status[node].Expanded? then T.Collapsed else T.Expanded]);
    Applied(s, DoToggleNode(c, node), issuer);
    TurnsOver(t, node);
    assert OpenNode(s, c, node, true) == WithTree(s, c, t');
    TreeIsThere(s, c, t');
    NothingAsked(s, WithTree(s, c, t'));
  }

  lemma TurnsOver(t: T.Tree, node: T.NodeRef)
    requires node in t.loaded && node in t.status && (t.status[node].Expanded? || t.status[node].Collapsed?)
    ensures T.Toggle(t, node) ==
            (t.(status := t.status[node := if t.status[node].Expanded? then T.Collapsed else T.Expanded]), T.Local)
  {
  }

  lemma TreeIsThere(s: State, c: ConnId, tree: T.Tree)
    requires c in s.conns
    ensures var s1 := WithTree(s, c, tree);
            && c in s1.conns && s1.conns[c].tree == tree && s1.conns[c].view == T.Flatten(tree, c)
            && s1.outside == s.outside && s1.nextId == s.nextId && s1.tasks == s.tasks
  {
    hide T.Flatten;
  }

  /** No loaded node has it among its children. */
  predicate NeverHeardOf(t: T.Tree, node: T.NodeRef) {
    forall p, i :: p in t.loaded && 0 <= i < |t.loaded[p]| ==> t.loaded[p][i].ref != node
  }

  /** A node nobody heard of, on its way, or with nothing in it is left alone; so is an open one asked to be open. */
  lemma NothingToOpen(s: State, c: ConnId, node: T.NodeRef, toggle: bool, issuer: Issuer)
    requires node.path != [] && c in s.conns && s.conns[c].view == T.Flatten(s.conns[c].tree, c)
    requires var t := s.conns[c].tree;
             || s.conns[c].session.None? || NeverHeardOf(t, node)
             || (node in t.status
                 && (t.status[node].Leaf? || t.status[node].Loading? || (!toggle && t.status[node].Expanded?)))
    ensures Apply(s, if toggle then DoToggleNode(c, node) else DoExpandNode(c, node), issuer) == s
  {
    hide T.Flatten, Begin, Apply;
    Applied(s, if toggle then DoToggleNode(c, node) else DoExpandNode(c, node), issuer);
    SameTree(s, c);
  }

  lemma SameTree(s: State, c: ConnId)
    requires c in s.conns && s.conns[c].view == T.Flatten(s.conns[c].tree, c)
    ensures WithTree(s, c, s.conns[c].tree) == s
  {
    hide T.Flatten;
    assert s.conns[c := s.conns[c]] == s.conns;
  }

  /** What comes for a node is what it holds and shows; a failure is said on it, and a session found gone is let go. */
  lemma ChildrenCome(s: State, c: ConnId, node: T.NodeRef, busy: BusyId, children: Result<T.Children, AppError>)
    requires c in s.conns && s.conns[c].status != Closed
    ensures var s2 := Handle(s, Expanded(c, node, busy, children));
            c in s2.conns
            && var t := s2.conns[c].tree;
            && s2.conns[c].view == T.Flatten(t, c)
            && node in t.status
            && (match children
                case Success(list) => t.status[node] == T.Expanded && node in t.loaded && t.loaded[node] == list
                case Failure(e) => t.status[node] == T.Failed(Says(e)) && node !in t.loaded)
            && (if children == Failure(SessionClosed)
                then s2.conns[c].session.None? && s2.conns[c].status == Broken("connection is closed")
                else s2.conns[c].session == s.conns[c].session && s2.conns[c].status == s.conns[c].status)
  {
    hide T.Flatten, T.WithLeaves, Except;
  }

  // ── previews ────────────────────────────────────────────────────────────

  /** A preview that is not there starts at the first page, with no ordering. */
  lemma ANewPreview(s: State, rel: Relation, issuer: Issuer)
    requires SessionOf(s, rel.conn).Some? && rel.table != [] && rel !in s.previews
    ensures var page := PageRequest(0, s.pageSize, None);
            var s1 := Apply(s, DoPreview(rel), issuer);
            && Asks(s, s1, FetchPage(rel, page)) && rel in s1.previews
            && s1.previews[rel] ==
               Preview(None, page, 0, None, Some(PendingPage(s.nextId, page, false)), Loading, 0, None, false, 0)
  {
  }

  /** One that is there stays as it is, unless it failed; without a session none starts. */
  lemma APreviewThatIsThere(s: State, rel: Relation, issuer: Issuer)
    requires (rel in s.previews && !s.previews[rel].data.Failed?) || SessionOf(s, rel.conn).None?
    ensures Apply(s, DoPreview(rel), issuer) == s
  {
  }

  /** One whose page failed is asked for again, from its first page and in the ordering it had. */
  lemma AFailedPreview(s: State, rel: Relation, issuer: Issuer)
    requires SessionOf(s, rel.conn).Some? && rel.table != [] && rel in s.previews && s.previews[rel].data.Failed?
    ensures var p := s.previews[rel];
            var page := PageRequest(0, s.pageSize, p.sort);
            var s1 := Apply(s, DoPreview(rel), issuer);
            && Asks(s, s1, FetchPage(rel, page)) && rel in s1.previews
            && s1.previews[rel] == p.(page := page, nextOffset := 0, data := Loading, loadedRows := 0,
                                      exhausted := false, pending := Some(PendingPage(s.nextId, page, false)))
  {
    hide Fetch, Asks;
    var p := s.previews[rel];
    var page := PageRequest(0, s.pageSize, p.sort);
    var first := s.(previews := s.previews[rel :=
                      p.(page := page, nextOffset := 0, data := Loading, loadedRows := 0, exhausted := false)]);
    FetchAsks(s, first, rel, page, false);
  }

  /** The ordering asked for: ascending by another column, and otherwise the other way round. */
  function Turned(was: Option<Sort>, column: nat): Sort {
    match was
    case Some(Sort(c, Asc)) => if c == column then Sort(column, Desc) else Sort(column, Asc)
    case _ => Sort(column, Asc)
  }

  predicate CanSort(s: State, rel: Relation, column: nat) {
    && SessionOf(s, rel.conn).Some? && SessionOf(s, rel.conn).value.sortable && rel in s.previews
    && (match s.previews[rel].columns case None => column == 0 case Some(n) => column < n)
  }

  /** Ordering a preview asks for its first page in that ordering, and shows none of the rows there were. */
  lemma ASort(s: State, rel: Relation, column: nat, issuer: Issuer)
    ensures var s1 := Apply(s, DoSort(rel, column), issuer);
            if !CanSort(s, rel, column) then s1 == s
            else
              var sort := Some(Turned(s.previews[rel].sort, column));
              var page := PageRequest(0, s.pageSize, sort);
              && Asks(s, s1, FetchPage(rel, page)) && rel in s1.previews
              && s1.previews[rel].sort == sort && s1.previews[rel].data == Loading
              && s1.previews[rel].loadedRows == 0 && s1.previews[rel].nextOffset == 0 && !s1.previews[rel].exhausted
              && s1.previews[rel].pending == Some(PendingPage(s.nextId, page, false))
  {
    hide Fetch, Asks;
    if CanSort(s, rel, column) {
      var p := s.previews[rel];
      var sort := Some(Turned(p.sort, column));
      SortIsTurned(p, column);
      var first := s.(previews := s.previews[rel :=
                        p.(sort := sort, data := Loading, loadedRows := 0, nextOffset := 0, exhausted := false)]);
      FetchAsks(s, first, rel, PageRequest(0, s.pageSize, sort), false);
    }
  }

  lemma SortIsTurned(p: Preview, column: nat)
    ensures NextSort(p, column) == Turned(p.sort, column)
  {
  }

  lemma FetchAsks(s: State, s': State, rel: Relation, page: PageRequest, append: bool)
    requires s'.outside == s.outside && s'.nextId == s.nextId && s'.conns == s.conns
    requires SessionOf(s, rel.conn).Some? && rel in s'.previews
    ensures var s1 := Fetch(s', rel, page, append);
            && Asks(s, s1, FetchPage(rel, page)) && rel in s1.previews
            && s1.previews[rel] == s'.previews[rel].(pending := Some(PendingPage(s.nextId, page, append)))
  {
    hide Except;
  }

  /** So a column that orders nothing is ordered by upwards, the same again downwards, and again upwards. */
  lemma SortingTurns(was: Option<Sort>, column: nat)
    requires was.Some? ==> was.value.column != column
    ensures var once := Turned(was, column);
            var twice := Turned(Some(once), column);
            && once == Sort(column, Asc) && twice == Sort(column, Desc)
            && Turned(Some(twice), column) == Sort(column, Asc)
  {
  }

  /** More rows are asked for from past the last, as many as before and in the same ordering. */
  lemma MoreRows(s: State, rel: Relation, issuer: Issuer)
    requires rel in s.previews && SessionOf(s, rel.conn).Some?
    requires var p := s.previews[rel]; p.pending.None? && p.data.Ready? && !p.exhausted
    ensures var p := s.previews[rel];
            var page := PageRequest(p.nextOffset, p.page.limit, p.page.sort);
            var s1 := Apply(s, DoLoadMore(rel), issuer);
            && Asks(s, s1, FetchPage(rel, page)) && rel in s1.previews
            && s1.previews[rel] == p.(pending := Some(PendingPage(s.nextId, page, true)))
  {
    hide Fetch, Asks;
    FetchAsks(s, s, rel, s.previews[rel].page.(offset := s.previews[rel].nextOffset), true);
  }

  /** Nobody is asked twice at once, for what is not there to be added to, or past the end. */
  lemma NoMoreRows(s: State, rel: Relation, issuer: Issuer)
    requires rel in s.previews ==>
               var p := s.previews[rel];
               p.pending.Some? || !p.data.Ready? || p.exhausted || SessionOf(s, rel.conn).None?
    ensures Apply(s, DoLoadMore(rel), issuer) == s
  {
  }
}
