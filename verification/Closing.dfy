/**
 Disconnecting is final: nothing belongs to a closed connection ever again, and
 it is never open again, whatever replies were already on their way.
 */
module Closing {
  import opened Wrappers
  import opened Store
  import opened Runs
  import opened Rows
  import opened Frames
  import opened Sessions

  predicate Over(conn: Conn) {
    conn.session.None? && conn.status != Open && conn.status != Connecting
  }

  /** The connection is over: it shows as closed or failed, and nothing is its own. */
  predicate Gone(s: State, c: ConnId) {
    && c in s.conns && Over(s.conns[c])
    && (forall rel :: rel in s.previews ==> rel.conn != c)
    && (forall rel :: rel in s.definitions ==> rel.conn != c)
    && (forall i :: 0 <= i < |s.busy| ==> !BelongsTo(s, s.busy[i].owner, c))
  }

  /** What is new belongs to a connection that has a session. */
  ghost predicate Grows(s: State, s': State) {
    && (forall rel :: rel in s'.previews ==> rel in s.previews || SessionOf(s, rel.conn).Some?)
    && (forall rel :: rel in s'.definitions ==> rel in s.definitions || SessionOf(s, rel.conn).Some?)
    && (forall q :: q in s'.queries ==>
          (q in s.queries && s'.queries[q].conn == s.queries[q].conn) || SessionOf(s, s'.queries[q].conn).Some?)
  }

  /** A step that is about `o` grows if what `o` is for does. */
  predicate GrowsAt(s: State, s': State, o: Owner) {
    && (o.OfPreview? && o.rel in s'.previews ==> o.rel in s.previews || SessionOf(s, o.rel.conn).Some?)
    && (o.OfDefinition? && o.rel in s'.definitions ==> o.rel in s.definitions || SessionOf(s, o.rel.conn).Some?)
    && (o.OfQuery? && o.query in s'.queries ==>
          (o.query in s.queries && s'.queries[o.query].conn == s.queries[o.query].conn)
          || SessionOf(s, s'.queries[o.query].conn).Some?)
  }

  lemma TouchedGrows(s: State, s': State, o: Owner)
    requires Touches(s, s', o) && GrowsAt(s, s', o)
    ensures Grows(s, s')
  {
  }

  lemma FetchKeys(s: State, rel: Relation, page: PageRequest, append: bool)
    ensures Fetch(s, rel, page, append).previews.Keys == s.previews.Keys
  {
    hide Except;
  }

  lemma PreviewsGrow(s: State, rel: Relation, column: nat)
    ensures GrowsAt(s, PreviewTable(s, rel), OfPreview(rel))
    ensures GrowsAt(s, SortPreview(s, rel, column), OfPreview(rel))
    ensures GrowsAt(s, LoadMore(s, rel), OfPreview(rel))
    ensures GrowsAt(s, ForgetPreview(s, rel), OfPreview(rel))
  {
    hide Fetch, NextSort, DropAll;
    if rel in s.previews {
      FetchKeys(s, rel, s.previews[rel].page, true);
    }
  }

  lemma DefinitionsGrow(s: State, rel: Relation, refresh: bool)
    ensures GrowsAt(s, Describe(s, rel, refresh), OfDefinition(rel))
    ensures GrowsAt(s, ForgetDefinition(s, rel), OfDefinition(rel))
  {
    hide Except, OwnedBy;
  }

  lemma QueryGrows(s: State, q: QueryId, query: Query, c: ConnId, sql: string, issuer: Issuer, task: Task)
    requires if q in s.queries then query.conn == s.queries[q].conn else SessionOf(s, query.conn).Some?
    ensures GrowsAt(s, Begin(RecordStart(s.(queries := s.queries[q := query]), q, c, sql, issuer), task), OfQuery(q))
  {
    hide RecordStart, Begin;
    var ready := s.(queries := s.queries[q := query]);
    RecordStartShows(ready, q, c, sql, issuer);
    BeginShows(RecordStart(ready, q, c, sql, issuer), task);
  }

  lemma RunGrows(s: State, c: ConnId, q: QueryId, sql: string, issuer: Issuer)
    ensures GrowsAt(s, RunQuery(s, c, q, sql, issuer), OfQuery(q))
  {
    hide RecordStart, Begin;
    if SessionOf(s, c).Some? && q !in s.queries {
      QueryGrows(s, q, Query(c, sql, None, Loading), c, sql, issuer, Run(q));
    }
  }

  lemma EstimateGrows(s: State, c: ConnId, q: QueryId, sql: string)
    ensures GrowsAt(s, EstimateQuery(s, c, q, sql), OfQuery(q))
  {
  }

  lemma ApproveGrows(s: State, q: QueryId, issuer: Issuer)
    ensures GrowsAt(s, ApproveQuery(s, q, issuer), OfQuery(q))
  {
    hide RecordStart, Begin;
    if q in s.queries && SessionOf(s, s.queries[q].conn).Some? && s.queries[q].needsApproval.Some? {
      var query := s.queries[q];
      QueryGrows(s, q, query.(needsApproval := None, data := Loading), query.conn, query.sql, issuer,
                 RunOver(q, query.needsApproval.value));
    }
  }

  lemma ForgetQueryGrows(s: State, q: QueryId)
    ensures GrowsAt(s, ForgetQuery(s, q), OfQuery(q))
  {
    hide Except, OwnedBy;
  }

  lemma AbandonGrows(s: State, o: Owner, reason: string)
    ensures GrowsAt(s, Abandon(s, o, reason), o)
  {
    hide T.Flatten, T.FinishLoad, RecordEnd, OrFailed;
    if o.OfQuery? {
      var q := o.query;
      var failed := if q in s.queries then s.(queries := s.queries[q := s.queries[q].(data := Failed(reason))]) else s;
      RecordEndShows(failed, q, if reason == CANCELLED then RunCancelled else RunFailed(reason));
    }
  }

  lemma SameGrows(s: State, s': State)
    requires SameShown(s, s')
    ensures Grows(s, s')
  {
  }

  lemma CancelGrows(s: State, id: BusyId)
    ensures Grows(s, Cancel(s, id))
  {
    hide Abandon, DropAll, RowOf, Grows, Touches;
    var dropped := Drop(s, id);
    DropShows(s, {id});
    SameGrows(s, dropped);
    if RowOf(s.busy, id).Some? {
      var o := RowOf(s.busy, id).value.owner;
      AbandonTouches(dropped, o, CANCELLED);
      AbandonGrows(dropped, o, CANCELLED);
      TouchedGrows(dropped, Cancel(s, id), o);
      ShownGrows(s, dropped, Cancel(s, id));
    }
  }

  lemma ShownGrows(s: State, s': State, s'': State)
    requires SameShown(s, s') && Grows(s', s'')
    ensures Grows(s, s'')
  {
  }

  lemma DisconnectGrows(s: State, c: ConnId)
    ensures Grows(s, Disconnect(s, c))
  {
    hide Disconnect, Orphans, Named, SameBut;
    DisconnectShows(s, c);
  }

  /** A step about something that is not a preview, a definition or a query. */
  lemma OtherGrows(s: State, s': State, o: Owner)
    requires Touches(s, s', o) && !o.OfPreview? && !o.OfDefinition? && !o.OfQuery?
    ensures Grows(s, s')
  {
  }

  lemma ApplyGrows(s: State, a: Action, issuer: Issuer)
    ensures Grows(s, Apply(s, a, issuer))
  {
    hide Disconnect, PreviewTable, Describe, ForgetDefinition, SortPreview, LoadMore, Grows, GrowsAt, ForgetPreview,
         RunQuery, EstimateQuery, ApproveQuery, ForgetQuery, Touches, Apply;
    var s' := Apply(s, a, issuer);
    Applied(s, a, issuer);
    if a.DoDisconnect? {
      DisconnectGrows(s, a.conn);
      return;
    }
    ApplyTouches(s, a, issuer);
    match a {
      case DoCancel(id) => CancelGrows(s, id); return;
      case DoPreview(rel) => PreviewsGrow(s, rel, 0);
      case DoSort(rel, column) => PreviewsGrow(s, rel, column);
      case DoLoadMore(rel) => PreviewsGrow(s, rel, 0);
      case DoForgetPreview(rel) => PreviewsGrow(s, rel, 0);
      case DoDescribe(rel, refresh) => DefinitionsGrow(s, rel, refresh);
      case DoForgetDefinition(rel) => DefinitionsGrow(s, rel, false);
      case DoRun(c, q, sql) => RunGrows(s, c, q, sql, issuer);
      case DoEstimate(c, q, sql) => EstimateGrows(s, c, q, sql);
      case DoApprove(q) => ApproveGrows(s, q, issuer);
      case DoForgetQuery(q) => ForgetQueryGrows(s, q);
      case _ => OtherGrows(s, s', Subject(s, a)); return;
    }
    TouchedGrows(s, s', Subject(s, a));
  }

  // ── events ──────────────────────────────────────────────────────────────

  lemma RanGrows(s: State, q: QueryId, output: Result<RunOutput, AppError>)
    ensures GrowsAt(s, OnRan(s, q, output), OfQuery(q))
  {
    hide OnRan;
    RanShows(s, q, output);
  }

  lemma AnswersGrow(s: State, e: Event)
    ensures e.Ran? ==> GrowsAt(s, OnRan(s, e.query, e.output), OfQuery(e.query))
    ensures e.Described? ==> GrowsAt(s, OnDescribed(s, e.rel, e.detail), OfDefinition(e.rel))
    ensures e.Estimated? ==> GrowsAt(s, OnEstimated(s, e.query, e.estimate), OfQuery(e.query))
    ensures e.Previewed? ==> GrowsAt(s, Told(s, e.rel, e.page, e.rows), OfPreview(e.rel))
  {
    hide Answered, Message, Landed, NotLanded, OnRan;
    if e.Ran? {
      RanGrows(s, e.query, e.output);
    }
  }

  lemma DyingGrows(s: State, s': State, c: ConnId)
    requires Grows(s, s')
    ensures Grows(s, SessionDied(s', c))
  {
  }

  lemma HandleGrows(s: State, e: Event)
    ensures Grows(s, Handle(s, e))
  {
    hide Grows, GrowsAt, Touches, DropAll, Told, SessionDied, Handle, OnDescribed, OnRan, OnEstimated;
    var dropped := if e.Recorded? then s else Drop(s, e.busy);
    if e.Previewed? {
      var told := Told(dropped, e.rel, e.page, e.rows);
      PreviewedTouches(s, e);
      DropShows(s, {e.busy});
      AnswersGrow(dropped, e);
      GrowsFrom(s, dropped, told, OfPreview(e.rel));
      TouchedGrows(s, told, OfPreview(e.rel));
      DyingGrows(s, told, e.rel.conn);
      return;
    }
    HandleTouches(s, e);
    Handled(s, e);
    if e.Recorded? {
      RecordedShows(s, e.query, e.written);
      SameGrows(s, Handle(s, e));
    } else if e.Described? || e.Ran? || e.Estimated? {
      DropShows(s, {e.busy});
      AnswersGrow(dropped, e);
      GrowsFrom(s, dropped, Handle(s, e), About(e));
      TouchedGrows(s, Handle(s, e), About(e));
    } else {
      OtherGrows(s, Handle(s, e), About(e));
    }
  }

  lemma GrowsFrom(s: State, s': State, s'': State, o: Owner)
    requires SameShown(s, s') && GrowsAt(s', s'', o)
    ensures GrowsAt(s, s'', o)
  {
  }

  // ── what is gone stays gone ─────────────────────────────────────────────

  /** What belongs to the connection after a step belonged to it before. */
  lemma BelongedBefore(s: State, s': State, owner: Owner, c: ConnId)
    requires Gone(s, c) && Grows(s, s') && BelongsTo(s', owner, c)
    ensures BelongsTo(s, owner, c)
  {
  }

  lemma {:induction false} ExceptIsFewer(busy: seq<BusyItem>, ids: set<BusyId>)
    ensures forall b :: b in Except(busy, ids) ==> b in busy && b.id !in ids
  {
    if busy != [] {
      ExceptIsFewer(busy[1..], ids);
    }
  }

  /** The rows after a step are rows from before it, or of the task it began. */
  lemma RowsAfter(s: State, s': State, ended: set<BusyId>, begun: Option<Task>, i: nat)
    requires Works(s, s', ended, begun) && i < |s'.busy|
    ensures s'.busy[i] in s.busy || (begun.Some? && s'.busy[i].owner == OwnerOf(begun.value))
  {
    hide Except;
    ExceptIsFewer(s.busy, ended);
  }

  /** Nothing new is begun for what is gone. */
  lemma BegunElsewhere(s: State, s': State, a: Action, t: Task, c: ConnId)
    requires Gone(s, c) && Grows(s, s') && Starts(s, a, t)
    ensures !BelongsTo(s', OwnerOf(t), c)
  {
    if BelongsTo(s', OwnerOf(t), c) {
      BelongedBefore(s, s', OwnerOf(t), c);
    }
  }

  lemma NoRowsComeBack(s: State, s': State, ended: set<BusyId>, begun: Option<Task>, c: ConnId)
    requires Gone(s, c) && Grows(s, s') && Works(s, s', ended, begun)
    requires begun.Some? ==> !BelongsTo(s', OwnerOf(begun.value), c)
    ensures forall i :: 0 <= i < |s'.busy| ==> !BelongsTo(s', s'.busy[i].owner, c)
  {
    hide Works, Grows, BelongsTo;
    forall i | 0 <= i < |s'.busy|
      ensures !BelongsTo(s', s'.busy[i].owner, c)
    {
      RowsAfter(s, s', ended, begun, i);
      if BelongsTo(s', s'.busy[i].owner, c) {
        BelongedBefore(s, s', s'.busy[i].owner, c);
      }
    }
  }

  lemma ShownIsGone(s: State, s': State, c: ConnId)
    requires Gone(s, c) && Grows(s, s')
    ensures forall rel :: rel in s'.previews ==> rel.conn != c
    ensures forall rel :: rel in s'.definitions ==> rel.conn != c
  {
    hide BelongsTo;
  }

  lemma SteadyIsGone(s: State, s': State, c: ConnId)
    requires Gone(s, c) && SteadyConns(s, s')
    ensures c in s'.conns && Over(s'.conns[c])
  {
    hide BelongsTo;
    assert Steady(s.conns[c], s'.conns[c]);
  }

  lemma ClosedIsGone(s: State, c: ConnId, d: ConnId)
    requires Gone(s, c)
    ensures var s' := Disconnect(s, d);
            c in s'.conns && Over(s'.conns[c])
  {
    hide BelongsTo, Disconnect, Orphans, Named;
    DisconnectShows(s, d);
  }

  lemma ApplyKeepsGone(s: State, a: Action, issuer: Issuer, c: ConnId)
    requires Gone(s, c)
    ensures Gone(Apply(s, a, issuer), c)
  {
    hide BelongsTo, Apply, Works, Grows, Starts, SteadyConns;
    var s' := Apply(s, a, issuer);
    var ended, begun := ApplyWorks(s, a, issuer);
    ApplyGrows(s, a, issuer);
    if begun.Some? {
      BegunElsewhere(s, s', a, begun.value, c);
    }
    NoRowsComeBack(s, s', ended, begun, c);
    ShownIsGone(s, s', c);
    if a.DoDisconnect? {
      Applied(s, a, issuer);
      ClosedIsGone(s, c, a.conn);
    } else {
      ApplyIsSteady(s, a, issuer);
      SteadyIsGone(s, s', c);
    }
  }

  lemma OthersStayOver(s: State, s': State, c: ConnId, d: ConnId)
    requires SameBut(s.conns, s'.conns, d) && c in s.conns && Over(s.conns[c])
    requires c == d ==> c in s'.conns && Over(s'.conns[c])
    ensures c in s'.conns && Over(s'.conns[c])
  {
  }

  lemma ItStaysOver(s: State, c: ConnId, reply: Result<ConnectOutput, AppError>)
    requires c in s.conns && Over(s.conns[c])
    ensures c in OnConnected(s, c, reply).conns && Over(OnConnected(s, c, reply).conns[c])
  {
    hide T.Flatten, T.SetRoots, Message;
    if reply.Success? {
      assert OnConnected(s, c, reply).conns == s.conns;
    }
  }

  lemma ItDiesOver(s: State, c: ConnId)
    requires c in s.conns && Over(s.conns[c])
    ensures c in SessionDied(s, c).conns && Over(SessionDied(s, c).conns[c])
  {
  }

  lemma ConnectedLeavesGone(s: State, c: ConnId, d: ConnId, reply: Result<ConnectOutput, AppError>)
    requires c in s.conns && Over(s.conns[c])
    ensures c in OnConnected(s, d, reply).conns && Over(OnConnected(s, d, reply).conns[c])
  {
    hide OnConnected, Over, SameBut;
    ConnectedTouches(s, d, reply);
    ItStaysOver(s, c, reply);
    OthersStayOver(s, OnConnected(s, d, reply), c, d);
  }

  lemma DyingLeavesGone(s: State, c: ConnId, d: ConnId)
    requires c in s.conns && Over(s.conns[c])
    ensures c in SessionDied(s, d).conns && Over(SessionDied(s, d).conns[c])
  {
    hide SessionDied, Over, SameBut;
    SessionDiedTouches(s, d, T.ROOT);
    ItDiesOver(s, c);
    OthersStayOver(s, SessionDied(s, d), c, d);
  }

  lemma HandleKeepsGone(s: State, e: Event, c: ConnId)
    requires Gone(s, c)
    ensures Gone(Handle(s, e), c)
  {
    hide BelongsTo, Handle, Works, Grows, SteadyConns, OnConnected, SessionDied, DropAll;
    var s' := Handle(s, e);
    HandleWorks(s, e);
    HandleGrows(s, e);
    NoRowsComeBack(s, s', Ends(e), None, c);
    ShownIsGone(s, s', c);
    if e.Connected? {
      Handled(s, e);
      DropShows(s, {e.busy});
      ConnectedLeavesGone(Drop(s, e.busy), c, e.conn, e.reply);
    } else {
      var mid, d := HandleIsSteady(s, e);
      SteadyIsGone(s, mid, c);
      DyingLeavesGone(mid, c, d);
    }
  }

  lemma CountingKeepsGone(s: State, c: ConnId)
    requires Gone(s, c)
    ensures Gone(s.(applied := s.applied + 1), c)
  {
  }

  lemma StepKeepsGone(w: World, step: Step, c: ConnId)
    requires Gone(w.s, c) && Enabled(w, step)
    ensures Gone(Next(w, step).s, c)
  {
    hide Gone, Apply, Handle;
    match step {
      case Acted =>
        CountingKeepsGone(w.s, c);
        ApplyKeepsGone(w.s.(applied := w.s.applied + 1), w.queue[0].0, w.queue[0].1, c);
      case Received => HandleKeepsGone(w.s, w.mailbox[0], c);
      case Dispatched(_, _) =>
      case Completed(_) =>
      case RowAnswered(_, _) =>
    }
  }

  lemma {:induction false} RunKeepsGone(w: World, steps: seq<Step>, c: ConnId)
    requires Gone(w.s, c) && Legal(w, steps)
    ensures Gone(After(w, steps).s, c)
    decreases |steps|
  {
    hide Gone, Enabled, Next;
    if steps != [] {
      StepKeepsGone(w, steps[0], c);
      RunKeepsGone(Next(w, steps[0]), steps[1..], c);
    }
  }

  /** Disconnecting ends every row of what belongs to the connection. */
  lemma DisconnectIsGone(s: State, c: ConnId)
    requires c in s.conns
    ensures Gone(Disconnect(s, c), c)
  {
    hide Disconnect, Orphans, Named, SameBut, BelongsTo, Works, CloseConn;
    var s' := Disconnect(s, c);
    var closed := CloseConn(s, c);
    DisconnectShows(s, c);
    CloseConnKeeps(s, c);
    var ended := DisconnectWorks(s, c);
    OrphansBelong(closed, s.busy, c);
    forall i | 0 <= i < |s'.busy|
      ensures !BelongsTo(s', s'.busy[i].owner, c)
    {
      RowsLeft(s, s', ended, i);
      SameBelonging(closed, s', s'.busy[i].owner, c);
    }
  }

  lemma RowsLeft(s: State, s': State, ended: set<BusyId>, i: nat)
    requires Works(s, s', ended, None) && i < |s'.busy|
    ensures s'.busy[i] in s.busy && s'.busy[i].id !in ended
  {
    hide Except;
    ExceptIsFewer(s.busy, ended);
  }

  lemma SameBelonging(s: State, s': State, owner: Owner, c: ConnId)
    requires forall q :: q in s'.queries ==> q in s.queries && s'.queries[q].conn == s.queries[q].conn
    ensures BelongsTo(s', owner, c) ==> BelongsTo(s, owner, c)
  {
  }

  /**
   Once an existing connection has been disconnected, whatever happens next and
   whatever was on its way, it has no session, is not open or opening, and no
   preview, definition or row belongs to it.
   */
  lemma DisconnectIsFinal(w: World, c: ConnId, later: seq<Step>)
    requires Enabled(w, Acted) && w.queue[0].0 == DoDisconnect(c) && c in w.s.conns
    requires Legal(Next(w, Acted), later)
    ensures Gone(After(Next(w, Acted), later).s, c)
  {
    hide Gone, Disconnect, Legal, After;
    var s := w.s.(applied := w.s.applied + 1);
    DisconnectIsGone(s, c);
    RunKeepsGone(Next(w, Acted), later, c);
  }
}
