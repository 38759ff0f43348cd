/**
 Connections over whole runs: a session is attached once or closed, a closed
 connection never comes back, and nothing ever belongs to it again.
 */
module Sessions {
  import opened Wrappers
  import opened Store
  import opened Runs
  import opened Rows
  import opened Frames
  import opened Loading

  // ── what a step does to connections ─────────────────────────────────────

  /** The same session, and no new life: at most it stopped opening. */
  predicate Steady(a: Conn, b: Conn) {
    b.session == a.session && (b.status == a.status || (a.status == Connecting && b.status.Broken?))
  }

  /** Connections keep their sessions, and new ones have none. */
  ghost predicate SteadyConns(s: State, s': State) {
    && SameEnds(s, s')
    && (forall c :: c in s.conns ==> c in s'.conns && Steady(s.conns[c], s'.conns[c]))
    && (forall c :: c in s'.conns && c !in s.conns ==> s'.conns[c].session.None? && s'.conns[c].status != Open)
  }

  lemma SameConnsAreSteady(s: State, s': State)
    requires SameEnds(s, s') && s'.conns == s.conns
    ensures SteadyConns(s, s')
  {
  }

  lemma SteadyThenSteady(s: State, s': State, s'': State)
    requires SteadyConns(s, s') && SteadyConns(s', s'')
    ensures SteadyConns(s, s'')
  {
  }

  /** A step that is about no connection leaves every session alone. */
  lemma TouchedIsSteady(s: State, s': State, o: Owner)
    requires Touches(s, s', o) && !o.OfConnection? && !o.OfNode?
    ensures SteadyConns(s, s')
  {
  }

  lemma AbandonIsSteady(s: State, o: Owner, reason: string)
    ensures SteadyConns(s, Abandon(s, o, reason))
  {
    hide SteadyConns, Touches, Abandon;
    if o.OfConnection? || o.OfNode? {
      AbandonConnIsSteady(s, o, reason);
    } else {
      AbandonTouches(s, o, reason);
      TouchedIsSteady(s, Abandon(s, o, reason), o);
    }
  }

  lemma AbandonConnIsSteady(s: State, o: Owner, reason: string)
    requires o.OfConnection? || o.OfNode?
    ensures SteadyConns(s, Abandon(s, o, reason))
  {
    hide WithTree, T.FinishLoad;
    if o.OfNode? && o.conn in s.conns {
      TreeIsSteady(s, o.conn, T.FinishLoad(s.conns[o.conn].tree, o.node, Failure(reason)));
    }
  }

  lemma CancelIsSteady(s: State, id: BusyId)
    ensures SteadyConns(s, Cancel(s, id))
  {
    hide Abandon, DropAll, RowOf, SteadyConns;
    var dropped := Drop(s, id);
    DropIsSteady(s, {id});
    if RowOf(s.busy, id).Some? {
      AbandonIsSteady(dropped, RowOf(s.busy, id).value.owner, CANCELLED);
      SteadyThenSteady(s, dropped, Cancel(s, id));
    }
  }

  lemma DropIsSteady(s: State, ids: set<BusyId>)
    ensures SteadyConns(s, DropAll(s, ids))
  {
    hide DropAll;
    DropShows(s, ids);
    SameConnsAreSteady(s, DropAll(s, ids));
  }

  lemma NewIsSteady(s: State, c: ConnId, conn: Conn)
    requires c !in s.conns && conn.session.None? && conn.status != Open
    ensures SteadyConns(s, s.(conns := s.conns[c := conn]))
  {
  }

  lemma ConnectIsSteady(s: State, profile: string, c: ConnId)
    ensures SteadyConns(s, ConnectTo(s, profile, c))
    ensures ConnectTo(s, profile, c) == s || c in ConnectTo(s, profile, c).conns
  {
    hide Begin, SteadyConns;
    if c in s.conns {
      SameConnsAreSteady(s, s);
    } else {
      var connecting := s.(conns := s.conns[c := NewConn(Connecting)]);
      SameConnsAreSteady(s, s);
      NewIsSteady(s, c, NewConn(Connecting));
      NewIsSteady(s, c, NewConn(Broken(NO_DRIVER)));
      BeginShows(connecting, Connect(c));
      SameConnsAreSteady(connecting, Begin(connecting, Connect(c)));
      SteadyThenSteady(s, connecting, Begin(connecting, Connect(c)));
    }
  }

  lemma OpenNodeIsSteady(s: State, c: ConnId, node: T.NodeRef, toggle: bool)
    ensures SteadyConns(s, OpenNode(s, c, node, toggle))
  {
    hide OpenNode;
    OpenNodeTouches(s, c, node, toggle);
    if c in s.conns {
      OpenNodeConn(s, c, node, toggle);
    } else {
      NoSuchConn(s, c, node, toggle);
    }
  }

  lemma ApplyIsSteady(s: State, a: Action, issuer: Issuer)
    requires !a.DoDisconnect?
    ensures SteadyConns(s, Apply(s, a, issuer))
  {
    hide ConnectTo, OpenNode, Cancel, SteadyConns, Touches, Apply;
    Applied(s, a, issuer);
    match a {
      case DoConnect(profile, c) => ConnectIsSteady(s, profile, c);
      case DoToggleNode(c, node) => OpenNodeIsSteady(s, c, node, true);
      case DoExpandNode(c, node) => OpenNodeIsSteady(s, c, node, false);
      case DoCancel(id) => CancelIsSteady(s, id);
      case _ =>
        ApplyTouches(s, a, issuer);
        TouchedIsSteady(s, Apply(s, a, issuer), Subject(s, a));
    }
  }

  // ── what an event does to connections ───────────────────────────────────

  lemma TreeIsSteady(s: State, c: ConnId, tree: T.Tree)
    requires c in s.conns
    ensures SteadyConns(s, WithTree(s, c, tree))
  {
    hide T.Flatten;
  }

  /** Children that arrived, or did not, before the session may turn out to be gone. */
  lemma ExpandedIsSteady(s: State, c: ConnId, node: T.NodeRef, children: Result<T.Children,
                         AppError>) returns (mid: State)
    ensures SteadyConns(s, mid)
    ensures OnExpanded(s, c, node, children) == mid || OnExpanded(s, c, node, children) == SessionDied(mid, c)
  {
    hide SteadyConns, SessionDied, WithTree, T.FinishLoad;
    mid := s;
    if c in s.conns {
      var outcome := match children case Success(v) => Success(v) case Failure(e) => Failure(Message(e));
      mid := WithTree(s, c, T.FinishLoad(s.conns[c].tree, node, outcome));
      TreeIsSteady(s, c, T.FinishLoad(s.conns[c].tree, node, outcome));
    } else {
      SameConnsAreSteady(s, s);
    }
  }

  /** Any event but a connection's own leaves sessions alone, or finds one gone. */
  lemma HandleIsSteady(s: State, e: Event) returns (mid: State, c: ConnId)
    requires !e.Connected?
    ensures SteadyConns(s, mid) && (Handle(s, e) == mid || Handle(s, e) == SessionDied(mid, c))
  {
    hide SteadyConns, DropAll, OnExpanded, SessionDied, Handle, Told, Touches;
    c, mid := 0, Handle(s, e);
    if e.Expanded? {
      c := e.conn;
      var dropped := Drop(s, e.busy);
      DropIsSteady(s, {e.busy});
      Handled(s, e);
      mid := ExpandedIsSteady(dropped, c, e.node, e.children);
      SteadyThenSteady(s, dropped, mid);
    } else if e.Previewed? {
      c, mid := e.rel.conn, Told(Drop(s, e.busy), e.rel, e.page, e.rows);
      PreviewedTouches(s, e);
      TouchedIsSteady(s, mid, OfPreview(e.rel));
    } else {
      HandleTouches(s, e);
      TouchedIsSteady(s, mid, About(e));
    }
  }

  // ── sessions are conserved ──────────────────────────────────────────────

  function Elements(ids: seq<SessionId>): set<SessionId> {
    set id | id in ids
  }

  predicate Once(ids: seq<SessionId>) {
    forall i, j :: 0 <= i < j < |ids| ==> ids[i] != ids[j]
  }

  /** The sessions attached to connections. */
  function Held(conns: map<ConnId, Conn>): set<SessionId> {
    set c | c in conns && conns[c].session.Some? :: conns[c].session.value.id
  }

  /** The sessions connect tasks have handed over. */
  function Delivered(received: seq<Event>): set<SessionId> {
    set e | e in received && e.Connected? && e.reply.Success? :: e.reply.value.session.id
  }

  predicate OpenIffSession(s: State) {
    forall c :: c in s.conns ==> (s.conns[c].status == Open <==> s.conns[c].session.Some?)
  }

  /** A connection has one connect task, ever. */
  predicate OneConnect(s: State) {
    && (forall b :: b in s.outside.spawned && s.outside.spawned[b].Connect? ==> s.outside.spawned[b].conn in s.conns)
    && (forall a, b | a in s.outside.spawned && b in s.outside.spawned ::
          s.outside.spawned[a].Connect? && s.outside.spawned[a] == s.outside.spawned[b] ==> a == b)
  }

  /** A session is attached to the connection its task was opening. */
  predicate Attachments(s: State) {
    forall c :: c in s.conns && s.conns[c].session.Some? ==>
      s.conns[c].session.value.id in s.outside.spawned && s.outside.spawned[s.conns[c].session.value.id] == Connect(c)
  }

  /** Every session delivered is attached to one connection, or was closed or lost, and is so once. */
  predicate Conserved(s: State, received: seq<Event>) {
    && Delivered(received) == Held(s.conns) + Elements(s.outside.closed + s.outside.lost)
    && Held(s.conns) !! Elements(s.outside.closed + s.outside.lost)
    && Once(s.outside.closed + s.outside.lost)
  }

  /** No task replies twice, and sessions are known by their tasks. */
  predicate PostedOnce(s: State, posted: seq<Event>, replied: set<BusyId>) {
    && (forall i, j :: 0 <= i < j < |posted| && !posted[i].Recorded? && !posted[j].Recorded? ==>
          posted[i].busy != posted[j].busy)
    && (forall i :: 0 <= i < |posted| && !posted[i].Recorded? ==> posted[i].busy in replied)
    && (forall i :: 0 <= i < |posted| && posted[i].Connected? && posted[i].reply.Success? ==>
          posted[i].reply.value.session.id == posted[i].busy)
    && MailGenuine(s, posted)
  }

  ghost predicate SessionsOk(w: World) {
    && OpenIffSession(w.s) && OneConnect(w.s) && Attachments(w.s)
    && Conserved(w.s, w.received)
    && PostedOnce(w.s, w.received + w.mailbox, w.replied)
  }

  // ── steady steps ────────────────────────────────────────────────────────

  lemma SteadyKeepsOpen(s: State, s': State)
    requires OpenIffSession(s) && SteadyConns(s, s')
    ensures OpenIffSession(s')
  {
  }

  lemma SteadyHolds(s: State, s': State, received: seq<Event>)
    requires Conserved(s, received) && SteadyConns(s, s')
    ensures Held(s'.conns) == Held(s.conns) && Conserved(s', received)
  {
    hide Elements, Once, Delivered;
    forall id | id in Held(s.conns)
      ensures id in Held(s'.conns)
    {
      var c :| c in s.conns && s.conns[c].session.Some? && s.conns[c].session.value.id == id;
      assert Steady(s.conns[c], s'.conns[c]);
    }
    forall id | id in Held(s'.conns)
      ensures id in Held(s.conns)
    {
      var c :| c in s'.conns && s'.conns[c].session.Some? && s'.conns[c].session.value.id == id;
      assert Steady(s.conns[c], s'.conns[c]);
    }
  }

  lemma SteadyKeepsAttachments(s: State, s': State)
    requires Attachments(s) && SteadyConns(s, s')
    requires forall b :: b in s.outside.spawned ==>
               b in s'.outside.spawned && s'.outside.spawned[b] == s.outside.spawned[b]
    ensures Attachments(s')
  {
    forall c | c in s'.conns && s'.conns[c].session.Some?
      ensures s'.conns[c].session.value.id in s'.outside.spawned
              && s'.outside.spawned[s'.conns[c].session.value.id] == Connect(c)
    {
      assert Steady(s.conns[c], s'.conns[c]);
    }
  }

  lemma WorkKeepsOneConnect(s: State, s': State, ended: set<BusyId>, begun: Option<Task>)
    requires BusyOk(s) && OneConnect(s) && Works(s, s', ended, begun)
    requires forall c :: c in s.conns ==> c in s'.conns
    requires begun.Some? && begun.value.Connect? ==> begun.value.conn !in s.conns && begun.value.conn in s'.conns
    ensures OneConnect(s')
  {
    hide Mirrors, Distinct, Except;
  }

  // ── steps that take or let go of a session ──────────────────────────────

  /** One connection lets go of its session, if it has one, which is closed or lost. */
  predicate LetsGo(s: State, s': State, c: ConnId)
    requires c in s.conns && c in s'.conns
  {
    var id := if s.conns[c].session.Some? then [s.conns[c].session.value.id] else [];
    && s'.conns[c].session.None? && s'.conns[c].status != Open
    && ((s'.outside.closed == s.outside.closed + id && s'.outside.lost == s.outside.lost)
        || (s'.outside.closed == s.outside.closed && s'.outside.lost == s.outside.lost + id))
  }

  lemma OnceMore(a: seq<SessionId>, b: seq<SessionId>, more: seq<SessionId>)
    requires Once(a + b) && |more| <= 1 && forall id :: id in more ==> id !in a + b
    ensures Once(a + more + b) && Once(a + (b + more))
    ensures Elements(a + more + b) == Elements(a + b) + Elements(more)
    ensures Elements(a + (b + more)) == Elements(a + b) + Elements(more)
  {
    if more == [] {
      assert a + more == a && b + more == b;
    } else {
      OnceOneMore(a, b, more[0]);
      assert more == [more[0]];
    }
  }

  lemma OnceOneMore(a: seq<SessionId>, b: seq<SessionId>, id: SessionId)
    requires Once(a + b) && id !in a + b
    ensures Once(a + [id] + b) && Once(a + (b + [id]))
  {
    var ab, one, other := a + b, a + [id] + b, a + (b + [id]);
    assert forall i :: 0 <= i < |ab| ==> ab[i] == (if i < |a| then one[i] else one[i + 1]) && ab[i] == other[i];
    forall i, j | 0 <= i < j < |one|
      ensures one[i] != one[j]
    {
      assert i != |a| ==> one[i] == ab[if i < |a| then i else i - 1];
      assert j != |a| ==> one[j] == ab[if j < |a| then j else j - 1];
    }
  }

  lemma LettingGoHolds(s: State, s': State, c: ConnId)
    requires c in s.conns && c in s'.conns && SameBut(s.conns, s'.conns, c) && LetsGo(s, s', c) && Attachments(s)
    ensures Held(s'.conns) == Held(s.conns) -
              (if s.conns[c].session.Some? then {s.conns[c].session.value.id} else {})
  {
    forall id | id in Held(s.conns) && !(s.conns[c].session.Some? && s.conns[c].session.value.id == id)
      ensures id in Held(s'.conns)
    {
      var d :| d in s.conns && s.conns[d].session.Some? && s.conns[d].session.value.id == id;
      assert d in s'.conns && s'.conns[d] == s.conns[d];
    }
  }

  lemma LettingGoConserves(s: State, s': State, c: ConnId, received: seq<Event>)
    requires Conserved(s, received) && OpenIffSession(s) && Attachments(s)
    requires c in s.conns && c in s'.conns && SameBut(s.conns, s'.conns, c) && LetsGo(s, s', c)
    ensures Conserved(s', received) && OpenIffSession(s')
  {
    hide Held, Delivered, Attachments, Once;
    var ids := if s.conns[c].session.Some? then [s.conns[c].session.value.id] else [];
    LettingGoHolds(s, s', c);
    HeldHas(s, c);
    OnceMore(s.outside.closed, s.outside.lost, ids);
    assert s.outside.closed + (s.outside.lost + ids) == s.outside.closed + s.outside.lost + ids;
    if s'.outside.closed == s.outside.closed && s'.outside.lost == s.outside.lost + ids {
      assert s'.outside.closed + s'.outside.lost == s.outside.closed + (s.outside.lost + ids);
    } else {
      assert s'.outside.closed + s'.outside.lost == s.outside.closed + ids + s.outside.lost;
    }
  }

  lemma HeldHas(s: State, c: ConnId)
    requires c in s.conns
    ensures s.conns[c].session.Some? ==> s.conns[c].session.value.id in Held(s.conns)
  {
  }

  lemma LettingGoKeepsAttachments(s: State, s': State, c: ConnId)
    requires Attachments(s) && s'.outside.spawned == s.outside.spawned
    requires c in s.conns && c in s'.conns && SameBut(s.conns, s'.conns, c) && s'.conns[c].session.None?
    ensures Attachments(s')
  {
  }

  lemma DisconnectLetsGo(s: State, c: ConnId)
    requires c in s.conns
    ensures c in Disconnect(s, c).conns && SameBut(s.conns, Disconnect(s, c).conns, c) && LetsGo(s, Disconnect(s, c), c)
  {
    hide DropOrphans, Orphans, SameBut;
    DisconnectShows(s, c);
  }

  lemma DisconnectNobody(s: State, c: ConnId)
    requires c !in s.conns
    ensures SteadyConns(s, Disconnect(s, c))
  {
    hide DropOrphans, Orphans;
    DisconnectShows(s, c);
  }

  lemma DyingLetsGo(s: State, c: ConnId)
    requires OpenIffSession(s)
    ensures if c in s.conns && s.conns[c].status != Closed
            then c in SessionDied(s, c).conns && SameBut(s.conns, SessionDied(s, c).conns, c)
                 && LetsGo(s, SessionDied(s, c), c)
            else SessionDied(s, c) == s
  {
    if c in s.conns && s.conns[c].status != Closed && s.conns[c].session.None? {
      assert s.outside.lost + [] == s.outside.lost;
    }
  }

  // ── a connect task replies ──────────────────────────────────────────────

  lemma DeliveredMore(received: seq<Event>, e: Event)
    ensures Delivered(received + [e]) ==
            Delivered(received) + (if e.Connected? && e.reply.Success? then {e.reply.value.session.id} else {})
  {
    assert forall x :: x in received + [e] <==> x in received || x == e;
  }

  /** No session of a task that has not been heard from is known. */
  lemma NotYetDelivered(s: State, received: seq<Event>, mailbox: seq<Event>, replied: set<BusyId>)
    requires mailbox != [] && PostedOnce(s, received + mailbox, replied) && !mailbox[0].Recorded?
    ensures mailbox[0].busy !in Delivered(received)
  {
    hide MailGenuine;
    var posted := received + mailbox;
    assert posted[|received|] == mailbox[0];
    forall e | e in received && e.Connected? && e.reply.Success?
      ensures e.reply.value.session.id != mailbox[0].busy
    {
      var i :| 0 <= i < |received| && received[i] == e;
      assert posted[i] == e;
    }
  }

  lemma AttachingHolds(s: State, s': State, c: ConnId)
    requires c in s.conns && c in s'.conns && SameBut(s.conns, s'.conns, c)
    requires s.conns[c].session.None? && s'.conns[c].session.Some?
    ensures Held(s'.conns) == Held(s.conns) + {s'.conns[c].session.value.id}
  {
    forall id | id in Held(s.conns)
      ensures id in Held(s'.conns)
    {
      var d :| d in s.conns && s.conns[d].session.Some? && s.conns[d].session.value.id == id;
      assert d in s'.conns && s'.conns[d] == s.conns[d];
    }
  }

  /** A session arrives for a connection still opening. */
  lemma AttachingConserves(s: State, s': State, c: ConnId, received: seq<Event>, e: Event)
    requires Conserved(s, received) && OpenIffSession(s) && Attachments(s) && SameEnds(s, s')
    requires e.Connected? && e.reply.Success? && e.reply.value.session.id !in Delivered(received)
    requires c in s.conns && c in s'.conns && SameBut(s.conns, s'.conns, c) && s.conns[c].status == Connecting
    requires s'.conns[c].session == Some(e.reply.value.session) && s'.conns[c].status == Open
    requires s'.outside.spawned == s.outside.spawned
    requires e.reply.value.session.id in s.outside.spawned && s.outside.spawned[e.reply.value.session.id] == Connect(c)
    ensures Conserved(s', received + [e]) && OpenIffSession(s') && Attachments(s')
  {
    hide Held, Delivered, Once, Elements;
    AttachingHolds(s, s', c);
    DeliveredMore(received, e);
  }

  /** A session arrives for a connection that no longer waits for it. */
  lemma SpareIsConserved(s: State, received: seq<Event>, e: Event)
    requires Conserved(s, received)
    requires e.Connected? && e.reply.Success? && e.reply.value.session.id !in Delivered(received)
    ensures Conserved(s.(outside := s.outside.(closed := s.outside.closed + [e.reply.value.session.id])),
                      received + [e])
  {
    hide Held, Delivered, Once;
    DeliveredMore(received, e);
    OnceMore(s.outside.closed, s.outside.lost, [e.reply.value.session.id]);
  }

  /** A connection that fails to open had no session. */
  lemma FailedHadNone(s: State, received: seq<Event>, mailbox: seq<Event>, replied: set<BusyId>, c: ConnId)
    requires Conserved(s, received) && Attachments(s) && OneConnect(s)
    requires mailbox != [] && PostedOnce(s, received + mailbox, replied)
    requires mailbox[0].Connected? && mailbox[0].conn == c && c in s.conns
    ensures s.conns[c].session.None?
  {
    hide Held, Delivered, Once, Elements;
    NotYetDelivered(s, received, mailbox, replied);
    HeldHas(s, c);
    assert (received + mailbox)[|received|] == mailbox[0];
    assert Genuine(s, mailbox[0]);
  }

  lemma ArrivalIsConserved(s: State, received: seq<Event>, mailbox: seq<Event>, replied: set<BusyId>)
    requires Conserved(s, received) && Attachments(s) && OneConnect(s) && OpenIffSession(s)
    requires mailbox != [] && PostedOnce(s, received + mailbox, replied) && mailbox[0].Connected?
    requires mailbox[0].reply.Success?
    ensures var e := mailbox[0];
            var s' := OnConnected(s, e.conn, e.reply);
            Conserved(s', received + [e]) && OpenIffSession(s') && Attachments(s')
  {
    hide Conserved, Delivered, PostedOnce, OneConnect, OpenIffSession, Attachments, T.Flatten, T.SetRoots;
    var e := mailbox[0];
    NotYetDelivered(s, received, mailbox, replied);
    FirstIsGenuine(s, received, mailbox, replied);
    if e.conn in s.conns && s.conns[e.conn].status == Connecting {
      AttachingConserves(s, OnConnected(s, e.conn, e.reply), e.conn, received, e);
    } else {
      SpareIsConserved(s, received, e);
      ConnsStay(s, s.outside.(closed := s.outside.closed + [e.reply.value.session.id]));
    }
  }

  lemma ConnsStay(s: State, outside: Outside)
    requires OpenIffSession(s) && Attachments(s) && outside.spawned == s.outside.spawned
    ensures OpenIffSession(s.(outside := outside)) && Attachments(s.(outside := outside))
  {
  }

  lemma FailureIsConserved(s: State, received: seq<Event>, mailbox: seq<Event>, replied: set<BusyId>)
    requires Conserved(s, received) && Attachments(s) && OneConnect(s) && OpenIffSession(s)
    requires mailbox != [] && PostedOnce(s, received + mailbox, replied) && mailbox[0].Connected?
    requires mailbox[0].reply.Failure?
    ensures var e := mailbox[0];
            var s' := OnConnected(s, e.conn, e.reply);
            Conserved(s', received + [e]) && OpenIffSession(s') && Attachments(s')
  {
    hide Conserved, Delivered, PostedOnce, OneConnect, OpenIffSession, Attachments, Message;
    var e := mailbox[0];
    var s' := OnConnected(s, e.conn, e.reply);
    if e.conn in s.conns {
      FailedHadNone(s, received, mailbox, replied, e.conn);
      LettingGoConserves(s, s', e.conn, received);
      LettingGoKeepsAttachments(s, s', e.conn);
    }
    NothingDelivered(s', received, e);
  }

  lemma NothingDelivered(s: State, received: seq<Event>, e: Event)
    requires Conserved(s, received) && !(e.Connected? && e.reply.Success?)
    ensures Conserved(s, received + [e])
  {
    hide Held, Delivered, Once, Elements;
    DeliveredMore(received, e);
  }

  lemma FirstIsGenuine(s: State, received: seq<Event>, mailbox: seq<Event>, replied: set<BusyId>)
    requires mailbox != [] && PostedOnce(s, received + mailbox, replied) && mailbox[0].Connected?
    ensures mailbox[0].busy in s.outside.spawned && s.outside.spawned[mailbox[0].busy] == Connect(mailbox[0].conn)
    ensures mailbox[0].reply.Success? ==> mailbox[0].reply.value.session.id == mailbox[0].busy
  {
    assert (received + mailbox)[|received|] == mailbox[0];
    assert Genuine(s, mailbox[0]);
  }

  // ── in every run ────────────────────────────────────────────────────────

  lemma PostedStays(s: State, s': State, posted: seq<Event>, replied: set<BusyId>)
    requires PostedOnce(s, posted, replied)
    requires forall b :: b in s.outside.spawned ==>
               b in s'.outside.spawned && s'.outside.spawned[b] == s.outside.spawned[b]
    ensures PostedOnce(s', posted, replied)
  {
    hide MailGenuine;
    MailStays(s, s', posted);
  }

  lemma SteadyIsOk(w: World, w': World, ended: set<BusyId>, begun: Option<Task>)
    requires BusyOk(w.s) && SessionsOk(w) && SteadyConns(w.s, w'.s) && Works(w.s, w'.s, ended, begun)
    requires begun.Some? && begun.value.Connect? ==> begun.value.conn !in w.s.conns && begun.value.conn in w'.s.conns
    requires w'.received == w.received && w'.received + w'.mailbox == w.received + w.mailbox && w'.replied == w.replied
    ensures SessionsOk(w')
  {
    hide BusyOk, Works, SteadyConns, OpenIffSession, OneConnect, Attachments, Conserved, PostedOnce;
    SpawnedStays(w.s, w'.s, ended, begun);
    SteadyKeepsOpen(w.s, w'.s);
    SteadyHolds(w.s, w'.s, w.received);
    SteadyKeepsAttachments(w.s, w'.s);
    SteadyKeeps(w.s, w'.s);
    WorkKeepsOneConnect(w.s, w'.s, ended, begun);
    PostedStays(w.s, w'.s, w.received + w.mailbox, w.replied);
  }

  lemma SteadyKeeps(s: State, s': State)
    requires SteadyConns(s, s')
    ensures forall c :: c in s.conns ==> c in s'.conns
  {
  }

  lemma ConnectBegins(s: State, a: Action, issuer: Issuer, ended: set<BusyId>, begun: Option<Task>)
    requires Works(s, Apply(s, a, issuer), ended, begun) && (begun.Some? ==> Starts(s, a, begun.value))
    ensures begun.Some? && begun.value.Connect? ==>
              begun.value.conn !in s.conns && begun.value.conn in Apply(s, a, issuer).conns
  {
    hide DropAll, Begin, ConnectTo;
    if begun.Some? && begun.value.Connect? {
      ConnectIsSteady(s, a.profile, a.conn);
      Grew(s, Apply(s, a, issuer), ended, begun.value);
    }
  }

  lemma Grew(s: State, s': State, ended: set<BusyId>, begun: Task)
    requires Works(s, s', ended, Some(begun))
    ensures s' != s
  {
    hide Except;
  }

  lemma DisconnectIsOk(w: World, w': World, c: ConnId)
    requires BusyOk(w.s) && SessionsOk(w) && w'.s == Disconnect(w.s, c)
    requires w'.received == w.received && w'.mailbox == w.mailbox && w'.replied == w.replied
    ensures SessionsOk(w')
  {
    hide Works, Disconnect, OpenIffSession, OneConnect, Attachments, Conserved, PostedOnce, SameBut, SteadyConns,
         BusyOk;
    var ended := DisconnectWorks(w.s, c);
    if c !in w.s.conns {
      DisconnectNobody(w.s, c);
      SteadyIsOk(w, w', ended, None);
    } else {
      DisconnectLetsGo(w.s, c);
      SpawnedIsTheSame(w.s, w'.s, ended);
      LettingGoConserves(w.s, w'.s, c, w.received);
      LettingGoKeepsAttachments(w.s, w'.s, c);
      SpawnedStays(w.s, w'.s, ended, None);
      KeysBut(w.s, w'.s, c);
      WorkKeepsOneConnect(w.s, w'.s, ended, None);
      PostedStays(w.s, w'.s, w.received + w.mailbox, w.replied);
    }
  }

  lemma SpawnedIsTheSame(s: State, s': State, ended: set<BusyId>)
    requires Works(s, s', ended, None)
    ensures s'.outside.spawned == s.outside.spawned
  {
    hide Except;
  }

  lemma KeysBut(s: State, s': State, c: ConnId)
    requires SameBut(s.conns, s'.conns, c) && (c in s.conns ==> c in s'.conns)
    ensures forall d :: d in s.conns ==> d in s'.conns
  {
  }

  lemma ActedIsOk(w: World)
    requires Sane(w) && SessionsOk(w) && Enabled(w, Acted)
    ensures SessionsOk(Next(w, Acted))
  {
    hide NothingStuck, Works, Apply, MailGenuine, NoReplyLost, SteadyConns, OpenIffSession, OneConnect, Attachments,
         Conserved, PostedOnce, Starts, BusyOk;
    var s := w.s.(applied := w.s.applied + 1);
    var w1 := w.(s := s);
    var w' := Next(w, Acted);
    RowsOf(w.s);
    QuietWorks(w.s, s);
    CountingIsSteady(w.s);
    SteadyIsOk(w, w1, {}, None);
    WorkKeepsRows(w.s, s, {}, None);
    var a, issuer := w.queue[0].0, w.queue[0].1;
    if a.DoDisconnect? {
      Applied(s, a, issuer);
      DisconnectIsOk(w1, w', a.conn);
    } else {
      ApplyIsSteady(s, a, issuer);
      var ended, begun := ApplyWorks(s, a, issuer);
      ConnectBegins(s, a, issuer, ended, begun);
      SteadyIsOk(w1, w', ended, begun);
    }
  }

  lemma CountingIsSteady(s: State)
    ensures SteadyConns(s, s.(applied := s.applied + 1))
  {
  }

  lemma ConnectedIsOk(w: World)
    requires Sane(w) && SessionsOk(w) && Enabled(w, Received) && w.mailbox[0].Connected?
    ensures SessionsOk(Next(w, Received))
  {
    hide NothingStuck, Works, MailGenuine, NoReplyLost, SteadyConns, OpenIffSession, OneConnect, Attachments,
         Conserved, PostedOnce, BusyOk, DropAll, OnConnected;
    var e := w.mailbox[0];
    var w' := Next(w, Received);
    var dropped := Drop(w.s, e.busy);
    var w1 := w.(s := dropped);
    RowsOf(w.s);
    EndWorks(w.s, w.s, {e.busy});
    DropIsSteady(w.s, {e.busy});
    SteadyIsOk(w, w1, {e.busy}, None);
    if e.reply.Success? {
      ArrivalIsConserved(dropped, w.received, w.mailbox, w.replied);
    } else {
      FailureIsConserved(dropped, w.received, w.mailbox, w.replied);
    }
    HandleWorks(w.s, e);
    SpawnedIsTheSame(w.s, w'.s, {e.busy});
    SpawnedIsTheSame(w.s, dropped, {e.busy});
    OnConnectedKeys(dropped, e.conn, e.reply);
    OneConnectStays(dropped, w'.s);
    assert w.received + w.mailbox == w'.received + w'.mailbox;
    PostedStays(dropped, w'.s, w.received + w.mailbox, w.replied);
  }

  lemma OnConnectedKeys(s: State, c: ConnId, reply: Result<ConnectOutput, AppError>)
    ensures forall d :: d in s.conns ==> d in OnConnected(s, c, reply).conns
  {
    hide SameBut, OnConnected;
    ConnectedTouches(s, c, reply);
    if c in s.conns {
      OnConnectedKey(s, c, reply);
    }
    KeysBut(s, OnConnected(s, c, reply), c);
  }

  lemma OnConnectedKey(s: State, c: ConnId, reply: Result<ConnectOutput, AppError>)
    requires c in s.conns
    ensures c in OnConnected(s, c, reply).conns
  {
    hide T.Flatten, T.SetRoots, Message;
    if reply.Success? {
      if s.conns[c].status == Connecting {
        assert c in OnConnected(s, c, reply).conns;
      }
    }
  }

  lemma OneConnectStays(s: State, s': State)
    requires OneConnect(s) && s'.outside.spawned == s.outside.spawned && forall d :: d in s.conns ==> d in s'.conns
    ensures OneConnect(s')
  {
  }

  lemma DyingIsOk(w: World, w': World, c: ConnId)
    requires SessionsOk(w) && w'.s == SessionDied(w.s, c)
    requires w'.received == w.received && w'.mailbox == w.mailbox && w'.replied == w.replied
    ensures SessionsOk(w')
  {
    hide OpenIffSession, OneConnect, Attachments, Conserved, PostedOnce, SessionDied, SameBut;
    DyingLetsGo(w.s, c);
    if c in w.s.conns && w.s.conns[c].status != Closed {
      SessionDiedIsNoWork(w.s, c);
      LettingGoConserves(w.s, w'.s, c, w.received);
      LettingGoKeepsAttachments(w.s, w'.s, c);
      KeysBut(w.s, w'.s, c);
      OneConnectStays(w.s, w'.s);
      PostedStays(w.s, w'.s, w.received + w.mailbox, w.replied);
    }
  }

  lemma SessionDiedSpawned(s: State, c: ConnId)
    ensures SessionDied(s, c).outside.spawned == s.outside.spawned
  {
  }

  lemma OtherIsOk(w: World)
    requires Sane(w) && SessionsOk(w) && Enabled(w, Received) && !w.mailbox[0].Connected?
    ensures SessionsOk(Next(w, Received))
  {
    hide NothingStuck, Works, MailGenuine, NoReplyLost, SteadyConns, OpenIffSession, OneConnect, Attachments,
         Conserved, PostedOnce, SessionDied, Handle;
    var e := w.mailbox[0];
    var w' := Next(w, Received);
    var mid, c := HandleIsSteady(w.s, e);
    HandleWorks(w.s, e);
    SpawnedIsTheSame(w.s, w'.s, Ends(e));
    SessionDiedSpawned(mid, c);
    SteadyKeepsOpen(w.s, mid);
    SteadyHolds(w.s, mid, w.received);
    SteadyKeepsAttachments(w.s, mid);
    SteadyKeeps(w.s, mid);
    OneConnectStays(w.s, mid);
    NothingDelivered(mid, w.received, e);
    assert w.received + w.mailbox == w'.received + w'.mailbox;
    PostedStays(w.s, mid, w.received + w.mailbox, w.replied);
    var w1 := w'.(s := mid);
    if w'.s != mid {
      DyingIsOk(w1, w', c);
    }
  }

  lemma PostedMore(s: State, posted: seq<Event>, replied: set<BusyId>, e: Event)
    requires PostedOnce(s, posted, replied) && Genuine(s, e)
    requires !e.Recorded? ==> e.busy !in replied
    requires e.Connected? && e.reply.Success? ==> e.reply.value.session.id == e.busy
    ensures PostedOnce(s, posted + [e], replied + if e.Recorded? then {} else {e.busy})
  {
    hide Genuine;
  }

  lemma SessionsStepOk(w: World, step: Step)
    requires Sane(w) && SessionsOk(w) && Enabled(w, step)
    ensures SessionsOk(Next(w, step))
  {
    hide NothingStuck, Apply, Handle, MailGenuine, NoReplyLost, OpenIffSession, OneConnect, Attachments, Conserved,
         PostedOnce;
    match step {
      case Dispatched(_, _) =>
      case Acted => ActedIsOk(w);
      case Received =>
        if w.mailbox[0].Connected? {
          ConnectedIsOk(w);
        } else {
          OtherIsOk(w);
        }
      case Completed(e) =>
        PostedMore(w.s, w.received + w.mailbox, w.replied, e);
        assert w.received + (w.mailbox + [e]) == w.received + w.mailbox + [e];
      case RowAnswered(row, failed) =>
        var e := RowReply(w, row, failed);
        PostedMore(w.s, w.received + w.mailbox, w.replied, e);
        assert w.received + (w.mailbox + [e]) == w.received + w.mailbox + [e];
        assert w.replied + {} == w.replied;
    }
  }

  lemma {:induction false} RunSessionsOk(w: World, steps: seq<Step>)
    requires Sane(w) && SessionsOk(w) && Legal(w, steps)
    ensures SessionsOk(After(w, steps))
    decreases |steps|
  {
    hide Sane, SessionsOk, Enabled, Next;
    if steps != [] {
      StepIsSane(w, steps[0]);
      SessionsStepOk(w, steps[0]);
      RunSessionsOk(Next(w, steps[0]), steps[1..]);
    }
  }

  lemma BegunSessionsOk(g: Wiring)
    ensures SessionsOk(Begun(g))
  {
  }

  /** No two connections hold one session. */
  predicate HeldOnce(conns: map<ConnId, Conn>) {
    forall c, d | c in conns && d in conns :: conns[c].session.Some? && conns[c].session == conns[d].session ==> c == d
  }

  /**
   In every state of every run a connection is open exactly when it has a
   session, and every session a connect task ever delivered is held by one
   connection, or was closed once, or was lost once, and only one of these.
   */
  lemma SessionsAreConserved(g: Wiring, steps: seq<Step>)
    requires Legal(Begun(g), steps)
    ensures var w := After(Begun(g), steps);
            && OpenIffSession(w.s) && HeldOnce(w.s.conns) && Conserved(w.s, w.received)
  {
    hide Begun, Legal, After, OneConnect, Conserved, PostedOnce, OpenIffSession;
    BegunIsSane(g);
    BegunSessionsOk(g);
    RunSessionsOk(Begun(g), steps);
  }
}
