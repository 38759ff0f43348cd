/**
 Queries over whole runs: while ids are not used twice, a query is loading
 exactly while one row is its own; a question waits only where nothing runs; and
 what is asked once is approved at most once, and is what is run.
 */
module Queries {
  import opened Wrappers
  import opened Store
  import opened Runs
  import opened Rows
  import opened Frames
  import opened Loading
  import opened Sessions

  /** A task of a query that has not been heard from. */
  predicate Outstanding(w: World, q: QueryId, b: BusyId) {
    && b in w.s.outside.spawned && OwnerOf(w.s.outside.spawned[b]) == OfQuery(q)
    && (b !in w.replied || InMail(w.mailbox, b))
  }

  predicate RunsFor(s: State, q: QueryId, b: BusyId) {
    b in s.tasks && OwnerOf(s.tasks[b]) == OfQuery(q)
  }

  ghost predicate QueryOk(w: World, q: QueryId) {
    && (forall a, b :: Outstanding(w, q, a) && Outstanding(w, q, b) ==> a == b)
    && (forall b :: RunsFor(w.s, q, b) ==> q in w.s.queries && w.s.queries[q].data.Loading?)
    && (q in w.s.queries && w.s.queries[q].needsApproval.Some? ==>
          w.s.queries[q].data.Idle? && forall b :: !Outstanding(w, q, b))
  }

  ghost predicate QueriesOk(w: World) {
    forall q: QueryId :: QueryOk(w, q)
  }

  /** A new query has an id that no query had. */
  predicate FreshId(w: World, step: Step)
    requires Enabled(w, step)
  {
    step.Acted? && (w.queue[0].0.DoRun? || w.queue[0].0.DoEstimate?) ==>
      w.queue[0].0.query in w.s.queries
      || forall b :: b in w.s.outside.spawned ==> OwnerOf(w.s.outside.spawned[b]) != OfQuery(w.queue[0].0.query)
  }

  predicate NeverReused(w: World, steps: seq<Step>)
    requires Legal(w, steps)
    decreases |steps|
  {
    steps == [] || (FreshId(w, steps[0]) && NeverReused(Next(w, steps[0]), steps[1..]))
  }

  lemma RunningIsOutstanding(w: World, q: QueryId, b: BusyId)
    requires Sane(w) && RunsFor(w.s, q, b)
    ensures Outstanding(w, q, b)
  {
    hide Mirrors, Distinct, Tracked, PagesTracked, SearchTracked, MailGenuine, InMail;
  }

  // ── a step of the loop that takes an action ─────────────────────────────

  /** Nobody replied in between. */
  ghost predicate NoMoreMail(w: World, w': World) {
    w'.replied == w.replied && forall b :: InMail(w'.mailbox, b) ==> InMail(w.mailbox, b)
  }

  lemma OutstandingBefore(w: World, w': World, ended: set<BusyId>, begun: Option<Task>, q: QueryId)
    requires Sane(w) && NoMoreMail(w, w') && Works(w.s, w'.s, ended, begun)
    ensures forall b :: Outstanding(w', q, b) ==>
              Outstanding(w, q, b) || (begun.Some? && OwnerOf(begun.value) == OfQuery(q) && b == w.s.nextId)
    ensures forall b :: RunsFor(w'.s, q, b) ==>
              RunsFor(w.s, q, b) || (begun.Some? && OwnerOf(begun.value) == OfQuery(q) && b == w.s.nextId)
    ensures forall b :: RunsFor(w'.s, q, b) && b in ended ==> begun.Some? && b == w.s.nextId
  {
    hide Mirrors, Distinct, Tracked, PagesTracked, SearchTracked, MailGenuine, InMail, Except;
  }

  lemma QuietQuery(w: World, w': World, ended: set<BusyId>, begun: Option<Task>, q: QueryId)
    requires Sane(w) && NoMoreMail(w, w') && Works(w.s, w'.s, ended, begun) && QueryOk(w, q)
    requires begun.Some? ==> OwnerOf(begun.value) != OfQuery(q)
    requires q in w'.s.queries <==> q in w.s.queries
    requires q in w.s.queries ==> w'.s.queries[q] == w.s.queries[q]
    ensures QueryOk(w', q)
  {
    hide Sane, Works, Outstanding, RunsFor;
    OutstandingBefore(w, w', ended, begun, q);
  }

  /** All the rows of a query ended, and the query is gone or has failed. */
  lemma EndedQuery(w: World, w': World, ended: set<BusyId>, q: QueryId)
    requires Sane(w) && NoMoreMail(w, w') && Works(w.s, w'.s, ended, None) && QueryOk(w, q)
    requires forall b :: RunsFor(w.s, q, b) ==> b in ended
    requires q in w'.s.queries ==> q in w.s.queries && w'.s.queries[q].needsApproval == w.s.queries[q].needsApproval
    requires q in w'.s.queries && w.s.queries[q].needsApproval.Some? ==> w'.s.queries[q].data == w.s.queries[q].data
    ensures QueryOk(w', q)
  {
    hide Works, Outstanding, RunsFor, NothingStuck, MailGenuine, NoReplyLost;
    OutstandingBefore(w, w', ended, None, q);
    NotStillRunning(w, w', ended, q);
  }

  lemma NotStillRunning(w: World, w': World, ended: set<BusyId>, q: QueryId)
    requires Works(w.s, w'.s, ended, None)
    requires forall b :: RunsFor(w.s, q, b) ==> b in ended
    ensures forall b :: !RunsFor(w'.s, q, b)
  {
    hide Except;
  }

  /** A query begins to run, which nothing was running. */
  lemma BegunQuery(w: World, w': World, task: Task, q: QueryId)
    requires Sane(w) && NoMoreMail(w, w') && Works(w.s, w'.s, {}, Some(task)) && QueryOk(w, q)
    requires OwnerOf(task) == OfQuery(q) && forall b :: !Outstanding(w, q, b)
    requires q in w'.s.queries && w'.s.queries[q].data.Loading? && w'.s.queries[q].needsApproval.None?
    ensures QueryOk(w', q)
  {
    hide Works, Outstanding, RunsFor, Sane;
    OutstandingBefore(w, w', {}, Some(task), q);
    forall b | RunsFor(w.s, q, b)
      ensures false
    {
      RunningIsOutstanding(w, q, b);
    }
  }

  /** What a step leaves of the queries it is not about. */
  lemma OtherQueries(w: World, w': World, ended: set<BusyId>, begun: Option<Task>, o: Owner)
    requires Sane(w) && NoMoreMail(w, w') && Works(w.s, w'.s, ended, begun) && QueriesOk(w)
    requires Touches(w.s, w'.s, o) && (begun.Some? && OwnerOf(begun.value).OfQuery? ==> OwnerOf(begun.value) == o)
    requires o.OfQuery? ==> QueryOk(w', o.query)
    ensures QueriesOk(w')
  {
    hide Works, QueryOk, Sane;
    forall q: QueryId
      ensures QueryOk(w', q)
    {
      if o != OfQuery(q) {
        QuietQuery(w, w', ended, begun, q);
      }
    }
  }

  lemma IdleQueries(w: World, w': World)
    requires Sane(w) && QueriesOk(w) && NoMoreMail(w, w') && SameWork(w.s, w'.s) && w'.s.queries == w.s.queries
    ensures QueriesOk(w')
  {
    hide Works, QueryOk, Sane, SameWork;
    QuietWorks(w.s, w'.s);
    forall q: QueryId
      ensures QueryOk(w', q)
    {
      QuietQuery(w, w', {}, None, q);
    }
  }

  lemma NobodyOutstanding(w: World, q: QueryId)
    requires forall b :: b in w.s.outside.spawned ==> OwnerOf(w.s.outside.spawned[b]) != OfQuery(q)
    ensures forall b :: !Outstanding(w, q, b)
  {
  }

  lemma RunShows(s: State, c: ConnId, q: QueryId, sql: string, issuer: Issuer)
    requires SessionOf(s, c).Some? && q !in s.queries
    ensures q in RunQuery(s, c, q, sql, issuer).queries
            && RunQuery(s, c, q, sql, issuer).queries[q] == Query(c, sql, None, Loading)
    ensures q in EstimateQuery(s, c, q, sql).queries
    ensures EstimateQuery(s, c, q, sql).queries[q] == Query(c, sql, None, Loading)
  {
    hide RecordStart, Begin;
    var ready := s.(queries := s.queries[q := Query(c, sql, None, Loading)]);
    RecordStartShows(ready, q, c, sql, issuer);
    BeginShows(RecordStart(ready, q, c, sql, issuer), Run(q));
    BeginShows(ready, Estimating(q));
  }

  lemma StartIsOk(w: World, w': World, c: ConnId, q: QueryId, sql: string, issuer: Issuer, estimating: bool)
    requires Sane(w) && QueriesOk(w) && NoMoreMail(w, w')
    requires w'.s == if estimating then EstimateQuery(w.s, c, q, sql) else RunQuery(w.s, c, q, sql, issuer)
    requires q !in w.s.queries ==>
               forall b :: b in w.s.outside.spawned ==> OwnerOf(w.s.outside.spawned[b]) != OfQuery(q)
    ensures QueriesOk(w')
  {
    hide Works, QueryOk, Sane, RunQuery, EstimateQuery, Touches;
    var run := RunWorks(w.s, c, q, sql, issuer);
    var estimate := EstimateWorks(w.s, c, q, sql);
    var begun := if estimating then estimate else run;
    if begun.None? {
      SameToo(w.s);
      IdleQueries(w, w');
    } else {
      NobodyOutstanding(w, q);
      RunShows(w.s, c, q, sql, issuer);
      BegunQuery(w, w', begun.value, q);
      RunTouches(w.s, c, q, sql, issuer);
      OtherQueries(w, w', {}, begun, OfQuery(q));
    }
  }

  lemma ApproveShows(s: State, q: QueryId, issuer: Issuer)
    requires q in s.queries && SessionOf(s, s.queries[q].conn).Some? && s.queries[q].needsApproval.Some?
    ensures q in ApproveQuery(s, q, issuer).queries
            && ApproveQuery(s, q, issuer).queries[q] == s.queries[q].(needsApproval := None, data := Loading)
  {
    hide RecordStart, Begin;
    var query := s.queries[q];
    var ready := s.(queries := s.queries[q := query.(needsApproval := None, data := Loading)]);
    RecordStartShows(ready, q, query.conn, query.sql, issuer);
    BeginShows(RecordStart(ready, q, query.conn, query.sql, issuer), RunOver(q, query.needsApproval.value));
  }

  lemma ApproveIsOk(w: World, w': World, q: QueryId, issuer: Issuer)
    requires Sane(w) && QueriesOk(w) && NoMoreMail(w, w') && w'.s == ApproveQuery(w.s, q, issuer)
    ensures QueriesOk(w')
  {
    hide Works, Sane, ApproveQuery, Touches, Outstanding, RunsFor;
    var begun := ApproveWorks(w.s, q, issuer);
    if begun.None? {
      SameToo(w.s);
      IdleQueries(w, w');
    } else {
      assert QueryOk(w, q);
      ApproveShows(w.s, q, issuer);
      BegunQuery(w, w', begun.value, q);
      ApproveTouches(w.s, q, issuer);
      OtherQueries(w, w', {}, begun, OfQuery(q));
    }
  }

  lemma ForgetIsOk(w: World, w': World, q: QueryId)
    requires Sane(w) && QueriesOk(w) && NoMoreMail(w, w') && w'.s == ForgetQuery(w.s, q)
    ensures QueriesOk(w')
  {
    hide Works, NothingStuck, Touches, OwnedBy, MailGenuine, NoReplyLost, BusyOk, DropAll, QueryOk;
    var ended := OwnedBy(w.s.busy, OfQuery(q));
    ForgettingWorks(w.s, Relation(0, []), q);
    ForgetQueryTouches(w.s, q);
    RowsOf(w.s);
    OwnedByAll(w.s, OfQuery(q));
    EndedQuery(w, w', ended, q);
    OtherQueries(w, w', ended, None, OfQuery(q));
  }

  /** A query with a row running is asking nothing, and that row is its only one. */
  lemma OnlyRow(w: World, q: QueryId, id: BusyId)
    requires Sane(w) && QueryOk(w, q) && RunsFor(w.s, q, id)
    ensures forall b :: RunsFor(w.s, q, b) ==> b == id
    ensures q in w.s.queries && w.s.queries[q].needsApproval.None?
  {
    hide Sane, Outstanding, RunsFor;
    RunningIsOutstanding(w, q, id);
    forall b | RunsFor(w.s, q, b)
      ensures b == id
    {
      RunningIsOutstanding(w, q, b);
    }
  }

  lemma AbandonQueryShows(s: State, q: QueryId, reason: string)
    ensures var s' := Abandon(s, OfQuery(q), reason);
            q in s'.queries ==> q in s.queries && s'.queries[q] == s.queries[q].(data := Failed(reason))
  {
    hide RecordEnd;
    var failed := if q in s.queries then s.(queries := s.queries[q := s.queries[q].(data := Failed(reason))]) else s;
    RecordEndShows(failed, q, if reason == CANCELLED then RunCancelled else RunFailed(reason));
  }

  lemma CancelShows(s: State, id: BusyId)
    ensures var row := RowOf(s.busy, id);
            && Touches(s, Cancel(s, id), Subject(s, DoCancel(id)))
            && (row.None? ==> Cancel(s, id).queries == s.queries)
            && (row.Some? && row.value.owner.OfQuery? ==>
                  var q := row.value.owner.query;
                  q in Cancel(s, id).queries ==>
                    q in s.queries && Cancel(s, id).queries[q] == s.queries[q].(data := Failed(CANCELLED)))
  {
    hide RowOf, DropAll, Abandon, Touches;
    var row := RowOf(s.busy, id);
    CancelTouches(s, id);
    DropShows(s, {id});
    if row.Some? && row.value.owner.OfQuery? {
      AbandonQueryShows(Drop(s, id), row.value.owner.query, CANCELLED);
    }
  }

  lemma CancelIsOk(w: World, w': World, id: BusyId)
    requires Sane(w) && QueriesOk(w) && NoMoreMail(w, w') && w'.s == Cancel(w.s, id)
    ensures QueriesOk(w')
  {
    hide Works, NothingStuck, Touches, MailGenuine, NoReplyLost, BusyOk, QueryOk, Cancel, RowOf;
    CancelWorks(w.s, id);
    CancelShows(w.s, id);
    RowsOf(w.s);
    TaskOfRow(w.s, id);
    var row := RowOf(w.s.busy, id);
    if row.None? {
      forall q: QueryId
        ensures QueryOk(w', q)
      {
        QuietQuery(w, w', {id}, None, q);
      }
    } else {
      var o := row.value.owner;
      if o.OfQuery? {
        OnlyRow(w, o.query, id);
        EndedQuery(w, w', {id}, o.query);
      }
      OtherQueries(w, w', {id}, None, o);
    }
  }

  lemma DisconnectedQuery(w: World, w': World, c: ConnId, q: QueryId, ended: set<BusyId>)
    requires Sane(w) && QueryOk(w, q) && NoMoreMail(w, w') && w'.s == Disconnect(w.s, c)
    requires Works(w.s, w'.s, ended, None) && ended == Ids(Orphans(CloseConn(w.s, c), w.s.busy, c))
    ensures QueryOk(w', q)
  {
    hide Works, NothingStuck, MailGenuine, NoReplyLost, BusyOk, QueryOk, Disconnect, Orphans, CloseConn, SameBut;
    DisconnectShows(w.s, c);
    var rows := Orphans(CloseConn(w.s, c), w.s.busy, c);
    if Named(rows, q) {
      var row :| row in rows && row.owner == OfQuery(q);
      OrphansBelong(CloseConn(w.s, c), w.s.busy, c);
      var i :| 0 <= i < |w.s.busy| && w.s.busy[i] == row;
      RowsOf(w.s);
      RowTask(w.s, i);
      OnlyRow(w, q, row.id);
      EndedQuery(w, w', ended, q);
    } else {
      QuietQuery(w, w', ended, None, q);
    }
  }

  lemma RowTask(s: State, i: nat)
    requires BusyOk(s) && i < |s.busy|
    ensures s.busy[i].id in s.tasks && OwnerOf(s.tasks[s.busy[i].id]) == s.busy[i].owner
  {
    hide Mirrors;
    ItemAt(s.busy, i);
    TaskOfRow(s, s.busy[i].id);
  }

  lemma DisconnectKeepsQueries(w: World, w': World, c: ConnId)
    requires Sane(w) && QueriesOk(w) && NoMoreMail(w, w') && w'.s == Disconnect(w.s, c)
    ensures QueriesOk(w')
  {
    hide Works, Sane, QueryOk, Disconnect, Orphans, CloseConn;
    var ended := DisconnectWorks(w.s, c);
    forall q: QueryId
      ensures QueryOk(w', q)
    {
      DisconnectedQuery(w, w', c, q, ended);
    }
  }

  /** An action that is about no query. */
  lemma OtherActionIsOk(w: World, w': World, a: Action, issuer: Issuer)
    requires Sane(w) && QueriesOk(w) && NoMoreMail(w, w') && w'.s == Apply(w.s, a, issuer)
    requires !a.DoDisconnect? && !Subject(w.s, a).OfQuery?
    ensures QueriesOk(w')
  {
    hide Works, Sane, QueryOk, Apply, Touches, QueriesOk, RowOf;
    var ended, begun := ApplyWorks(w.s, a, issuer);
    ApplyTouches(w.s, a, issuer);
    OtherQueries(w, w', ended, begun, Subject(w.s, a));
  }

  lemma ApplyQueriesOk(w: World, w': World, a: Action, issuer: Issuer)
    requires Sane(w) && QueriesOk(w) && NoMoreMail(w, w') && w'.s == Apply(w.s, a, issuer)
    requires a.DoRun? || a.DoEstimate? ==>
               a.query in w.s.queries
               || forall b :: b in w.s.outside.spawned ==> OwnerOf(w.s.outside.spawned[b]) != OfQuery(a.query)
    ensures QueriesOk(w')
  {
    hide Disconnect, Sane, QueriesOk, RunQuery, EstimateQuery, ApproveQuery, ForgetQuery, Cancel, Apply, NoMoreMail;
    Applied(w.s, a, issuer);
    match a {
      case DoRun(c, q, sql) => StartIsOk(w, w', c, q, sql, issuer, false);
      case DoEstimate(c, q, sql) => StartIsOk(w, w', c, q, sql, issuer, true);
      case DoApprove(q) => ApproveIsOk(w, w', q, issuer);
      case DoForgetQuery(q) => ForgetIsOk(w, w', q);
      case DoDisconnect(c) => DisconnectKeepsQueries(w, w', c);
      case DoCancel(id) => CancelIsOk(w, w', id);
      case _ => OtherActionIsOk(w, w', a, issuer);
    }
  }

  // ── a step of the loop that takes an event ──────────────────────────────

  lemma TakingMail(w: World, w': World)
    requires w.mailbox != [] && w'.mailbox == w.mailbox[1..] && w'.replied == w.replied
    ensures NoMoreMail(w, w')
  {
    forall b | InMail(w'.mailbox, b)
      ensures InMail(w.mailbox, b)
    {
      var i :| 0 <= i < |w'.mailbox| && !w'.mailbox[i].Recorded? && w'.mailbox[i].busy == b;
      assert w.mailbox[i + 1] == w'.mailbox[i];
    }
  }

  /** A reply is in the mail once. */
  lemma HeardFrom(w: World)
    requires w.mailbox != [] && !w.mailbox[0].Recorded? && PostedOnce(w.s, w.received + w.mailbox, w.replied)
    ensures InMail(w.mailbox, w.mailbox[0].busy) && !InMail(w.mailbox[1..], w.mailbox[0].busy)
    ensures w.mailbox[0].busy in w.replied && Genuine(w.s, w.mailbox[0])
  {
    var posted := w.received + w.mailbox;
    assert posted[|w.received|] == w.mailbox[0];
    forall i | 0 <= i < |w.mailbox[1..]| && !w.mailbox[1..][i].Recorded?
      ensures w.mailbox[1..][i].busy != w.mailbox[0].busy
    {
      assert posted[|w.received| + 1 + i] == w.mailbox[1..][i];
    }
  }

  lemma OtherEventsLeaveQueries(s: State, e: Event)
    requires !e.Ran? && !e.Estimated?
    ensures Handle(s, e).queries == s.queries
  {
    hide DropAll, SameBut, Told, SessionDied, Handle, OnRecorded;
    Handled(s, e);
    if e.Recorded? {
      RecordedShows(s, e.query, e.written);
    } else if e.Previewed? {
      PreviewedTouches(s, e);
      SessionDiedTouches(Told(Drop(s, e.busy), e.rel, e.page, e.rows), e.rel.conn, T.ROOT);
    } else {
      HandleTouches(s, e);
    }
  }

  /** What a reply leaves of the question a query was asking. */
  lemma ReplyAsks(s: State, e: Event)
    requires e.Ran? || e.Estimated?
    ensures var s' := Handle(s, e);
            && Touches(s, s', OfQuery(e.query)) && (e.query in s'.queries <==> e.query in s.queries)
            && (e.query in s.queries ==>
                  s'.queries[e.query].conn == s.queries[e.query].conn && !s'.queries[e.query].data.Loading?)
            && (e.query in s.queries ==>
                  s'.queries[e.query].needsApproval ==
                  if e.Ran? && e.output.Success? && e.output.value.AskFirst? then Some(e.output.value.over)
                  else s.queries[e.query].needsApproval)
            && (e.query in s.queries && e.Ran? && e.output.Success? && e.output.value.AskFirst? ==>
                  s'.queries[e.query].data.Idle?)
  {
    hide DropAll, OnRan, OnEstimated, Touches, Handle;
    var dropped := Drop(s, e.busy);
    DropShows(s, {e.busy});
    HandleTouches(s, e);
    Handled(s, e);
    if e.Ran? {
      RanAsks(dropped, e.query, e.output);
    } else {
      EstimatedAsks(dropped, e.query, e.estimate);
    }
  }

  lemma EstimatedAsks(s: State, q: QueryId, estimate: Result<A.Estimate, AppError>)
    ensures var s' := OnEstimated(s, q, estimate);
            && (q in s'.queries <==> q in s.queries)
            && (q in s.queries ==>
                  && s'.queries[q].needsApproval == s.queries[q].needsApproval
                  && s'.queries[q].conn == s.queries[q].conn
                  && !s'.queries[q].data.Loading?)
  {
  }

  lemma RanAsks(s: State, q: QueryId, output: Result<RunOutput, AppError>)
    ensures var s' := OnRan(s, q, output);
            && (q in s'.queries <==> q in s.queries)
            && (q in s.queries ==> s'.queries[q].conn == s.queries[q].conn && !s'.queries[q].data.Loading?)
            && (q in s.queries ==>
                  s'.queries[q].needsApproval ==
                  if output.Success? && output.value.AskFirst? then Some(output.value.over)
                  else s.queries[q].needsApproval)
            && (q in s.queries && output.Success? && output.value.AskFirst? ==> s'.queries[q].data.Idle?)
  {
    hide OnRan;
    RanShows(s, q, output);
  }

  /** The only task of a query has replied: nothing of it is left. */
  lemma HeardQuery(w: World, w': World, q: QueryId)
    requires Sane(w) && QueryOk(w, q) && NoMoreMail(w, w') && w.mailbox != []
    requires w'.mailbox == w.mailbox[1..] && w'.s == Handle(w.s, w.mailbox[0])
    requires PostedOnce(w.s, w.received + w.mailbox, w.replied)
    requires (w.mailbox[0].Ran? || w.mailbox[0].Estimated?) && w.mailbox[0].query == q
    ensures QueryOk(w', q)
  {
    hide Works, NothingStuck, MailGenuine, NoReplyLost, Handle, RunsFor, PostedOnce, InMail, Touches;
    var e := w.mailbox[0];
    HeardFrom(w);
    assert Outstanding(w, q, e.busy);
    HandleWorks(w.s, e);
    OutstandingBefore(w, w', {e.busy}, None, q);
    ReplyAsks(w.s, e);
    forall b | RunsFor(w'.s, q, b)
      ensures false
    {
      RunningIsOutstanding(w, q, b);
    }
  }

  lemma HandleQueriesOk(w: World, w': World)
    requires Sane(w) && QueriesOk(w) && w.mailbox != [] && w'.replied == w.replied
    requires w'.mailbox == w.mailbox[1..] && w'.s == Handle(w.s, w.mailbox[0])
    requires PostedOnce(w.s, w.received + w.mailbox, w.replied)
    ensures QueriesOk(w')
  {
    hide Works, Sane, Handle, PostedOnce, QueryOk, NoMoreMail, Touches;
    var e := w.mailbox[0];
    TakingMail(w, w');
    HandleWorks(w.s, e);
    if e.Ran? || e.Estimated? {
      HeardQuery(w, w', e.query);
      ReplyAsks(w.s, e);
      OtherQueries(w, w', Ends(e), None, OfQuery(e.query));
    } else {
      OtherEventsLeaveQueries(w.s, e);
      forall q: QueryId
        ensures QueryOk(w', q)
      {
        QuietQuery(w, w', Ends(e), None, q);
      }
    }
  }

  // ── the rest of the steps ───────────────────────────────────────────────

  /** Mail that arrives is from nobody, or from a task not heard from. */
  lemma MailArrives(w: World, w': World, e: Event)
    requires QueriesOk(w) && w'.s == w.s && w'.mailbox == w.mailbox + [e]
    requires if e.Recorded? then w'.replied == w.replied
             else w'.replied == w.replied + {e.busy} && e.busy !in w.replied
    ensures QueriesOk(w')
  {
    hide QueryOk;
    forall q: QueryId
      ensures QueryOk(w', q)
    {
      ArrivalKeepsQuery(w, w', e, q);
    }
  }

  lemma ArrivalKeepsQuery(w: World, w': World, e: Event, q: QueryId)
    requires QueryOk(w, q) && w'.s == w.s && w'.mailbox == w.mailbox + [e]
    requires if e.Recorded? then w'.replied == w.replied
             else w'.replied == w.replied + {e.busy} && e.busy !in w.replied
    ensures QueryOk(w', q)
  {
    hide RunsFor, Outstanding;
    ArrivalOutstanding(w, w', e, q);
  }

  /** A task that replies was still to be heard from, and is. */
  lemma ArrivalOutstanding(w: World, w': World, e: Event, q: QueryId)
    requires w'.s == w.s && w'.mailbox == w.mailbox + [e]
    requires if e.Recorded? then w'.replied == w.replied
             else w'.replied == w.replied + {e.busy} && e.busy !in w.replied
    ensures forall b :: Outstanding(w', q, b) ==> Outstanding(w, q, b)
  {
    forall b | Outstanding(w', q, b)
      ensures Outstanding(w, q, b)
    {
      if InMail(w'.mailbox, b) {
        var i :| 0 <= i < |w'.mailbox| && !w'.mailbox[i].Recorded? && w'.mailbox[i].busy == b;
        if i < |w.mailbox| {
          assert w.mailbox[i] == w'.mailbox[i];
        }
      }
    }
  }

  lemma QueriesStepOk(w: World, step: Step)
    requires Sane(w) && SessionsOk(w) && QueriesOk(w) && Enabled(w, step) && FreshId(w, step)
    ensures QueriesOk(Next(w, step))
  {
    hide NothingStuck, Apply, Handle, MailGenuine, NoReplyLost, QueriesOk, OpenIffSession, OneConnect, Attachments,
         Conserved, PostedOnce, InMail, Works;
    match step {
      case Dispatched(_, _) =>
        SameToo(w.s);
        IdleQueries(w, Next(w, step));
      case Acted =>
        var s := w.s.(applied := w.s.applied + 1);
        var w1 := w.(s := s);
        CountingIsSane(w);
        IdleQueries(w, w1);
        ApplyQueriesOk(w1, Next(w, step), w.queue[0].0, w.queue[0].1);
      case Received => HandleQueriesOk(w, Next(w, step));
      case Completed(e) => MailArrives(w, Next(w, step), e);
      case RowAnswered(row, failed) => MailArrives(w, Next(w, step), RowReply(w, row, failed));
    }
  }

  lemma CountingIsSane(w: World)
    requires Sane(w)
    ensures Sane(w.(s := w.s.(applied := w.s.applied + 1)))
  {
    hide NothingStuck, InMail, Fits;
    CountingIsNotStuck(w.s);
  }

  lemma {:induction false} RunQueriesOk(w: World, steps: seq<Step>)
    requires Sane(w) && SessionsOk(w) && QueriesOk(w) && Legal(w, steps) && NeverReused(w, steps)
    ensures Sane(After(w, steps)) && QueriesOk(After(w, steps))
    decreases |steps|
  {
    hide Sane, SessionsOk, QueriesOk, Enabled, Next, FreshId;
    if steps != [] {
      StepIsSane(w, steps[0]);
      SessionsStepOk(w, steps[0]);
      QueriesStepOk(w, steps[0]);
      RunQueriesOk(Next(w, steps[0]), steps[1..]);
    }
  }

  lemma BegunQueriesOk(g: Wiring)
    ensures QueriesOk(Begun(g))
  {
  }

  /** The rows of a query. */
  function RowsFor(busy: seq<BusyItem>, q: QueryId): nat {
    if busy == [] then 0 else (if busy[0].owner == OfQuery(q) then 1 else 0) + RowsFor(busy[1..], q)
  }

  lemma {:induction false} RowsAreCounted(busy: seq<BusyItem>, q: QueryId)
    requires forall i, j :: 0 <= i < j < |busy| ==> busy[i].owner != OfQuery(q) || busy[j].owner != OfQuery(q)
    ensures RowsFor(busy, q) == if exists i :: 0 <= i < |busy| && busy[i].owner == OfQuery(q) then 1 else 0
  {
    if busy != [] {
      RowsAreCounted(busy[1..], q);
      if busy[0].owner == OfQuery(q) {
        assert forall j :: 0 <= j < |busy[1..]| ==> busy[1..][j] == busy[j + 1];
      } else {
        assert (exists i :: 0 <= i < |busy| && busy[i].owner == OfQuery(q))
          <==> (exists i :: 0 <= i < |busy[1..]| && busy[1..][i].owner == OfQuery(q)) by {
          if i :| 0 <= i < |busy| && busy[i].owner == OfQuery(q) {
            assert busy[1..][i - 1] == busy[i];
          }
          if i :| 0 <= i < |busy[1..]| && busy[1..][i].owner == OfQuery(q) {
            assert busy[1..][i] == busy[i + 1];
          }
        }
      }
    }
  }

  /** At most one row, and one exactly when it loads. */
  lemma OneRowWhileLoading(w: World, q: QueryId)
    requires Sane(w) && QueryOk(w, q)
    ensures RowsFor(w.s.busy, q) == if q in w.s.queries && w.s.queries[q].data.Loading? then 1 else 0
  {
    hide NothingStuck, MailGenuine, NoReplyLost, BusyOk, Outstanding, RunsFor, QueryOk;
    var busy := w.s.busy;
    RowsOf(w.s);
    DistinctRows(w.s);
    forall i, j | 0 <= i < j < |busy|
      ensures busy[i].owner != OfQuery(q) || busy[j].owner != OfQuery(q)
    {
      if busy[i].owner == OfQuery(q) && busy[j].owner == OfQuery(q) {
        RowRuns(w, q, i);
        RowRuns(w, q, j);
        OnlyRow(w, q, busy[i].id);
      }
    }
    RowsAreCounted(busy, q);
    if q in w.s.queries && w.s.queries[q].data.Loading? {
      var i := LiveIsAlive(w, OfQuery(q));
      AliveOwner(w, i, OfQuery(q));
    } else if i :| 0 <= i < |busy| && busy[i].owner == OfQuery(q) {
      RowRuns(w, q, i);
      RunningLoads(w, q, busy[i].id);
    }
  }

  lemma DistinctRows(s: State)
    requires BusyOk(s)
    ensures forall i, j :: 0 <= i < j < |s.busy| ==> s.busy[i].id != s.busy[j].id
  {
    hide Mirrors;
  }

  lemma RowRuns(w: World, q: QueryId, i: nat)
    requires BusyOk(w.s) && i < |w.s.busy| && w.s.busy[i].owner == OfQuery(q)
    ensures RunsFor(w.s, q, w.s.busy[i].id)
  {
    hide BusyOk;
    RowTask(w.s, i);
  }

  lemma RunningLoads(w: World, q: QueryId, b: BusyId)
    requires QueryOk(w, q) && RunsFor(w.s, q, b)
    ensures q in w.s.queries && w.s.queries[q].data.Loading?
  {
  }

  lemma AliveOwner(w: World, i: nat, owner: Owner)
    requires i < |w.s.busy| && Alive(w, i, owner)
    ensures w.s.busy[i].owner == owner
  {
    hide Cancel;
  }

  /**
   In every run that uses no query id twice: a query has one row while it loads
   and none otherwise; and one that waits for an approval shows nothing as
   loading, and no task of its own is still to be heard from.
   */
  lemma QueriesRunOnce(g: Wiring, steps: seq<Step>, q: QueryId)
    requires Legal(Begun(g), steps) && NeverReused(Begun(g), steps)
    ensures var w := After(Begun(g), steps);
            && RowsFor(w.s.busy, q) == (if q in w.s.queries && w.s.queries[q].data.Loading? then 1 else 0)
            && (q in w.s.queries && w.s.queries[q].needsApproval.Some? ==>
                  w.s.queries[q].data.Idle? && RowsFor(w.s.busy, q) == 0 && forall b :: !Outstanding(w, q, b))
  {
    hide Legal, NeverReused, After, Begun, Sane, SessionsOk, Outstanding, RunsFor, RowsFor;
    BegunIsSane(g);
    BegunSessionsOk(g);
    BegunQueriesOk(g);
    RunQueriesOk(Begun(g), steps);
    OneRowWhileLoading(After(Begun(g), steps), q);
    assert QueryOk(After(Begun(g), steps), q);
  }
}
