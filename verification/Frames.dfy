/**
 What each action and each event leaves alone.
 */
module Frames {
  import opened Wrappers
  import opened Pages
  import opened Store
  import opened Rows

  // ── what a step shows ───────────────────────────────────────────────────

  ghost predicate SameBut<K(!new), V>(m: map<K, V>, m': map<K, V>, k: K) {
    forall j :: j != k ==> (j in m' <==> j in m) && (j in m ==> m'[j] == m[j])
  }

  /** What the history is kept in is what it was. */
  predicate SameRecords(s: State, s': State) {
    && s'.runs == s.runs && s'.outside.started == s.outside.started && s'.outside.settled == s.outside.settled
    && s'.library == s.library
  }

  /** No session was closed, and none was lost. */
  predicate SameEnds(s: State, s': State) {
    s'.outside.closed == s.outside.closed && s'.outside.lost == s.outside.lost
  }

  /**
   What is shown, and is not what `o` is for, is what it was; sessions end only
   with a connection, and the history changes only with a query.
   */
  ghost predicate Touches(s: State, s': State, o: Owner) {
    && (if o.OfConnection? || o.OfNode? then SameBut(s.conns, s'.conns, o.conn)
        else s'.conns == s.conns && SameEnds(s, s'))
    && (if o.OfPreview? then SameBut(s.previews, s'.previews, o.rel) else s'.previews == s.previews)
    && (if o.OfDefinition? then SameBut(s.definitions, s'.definitions, o.rel) else s'.definitions == s.definitions)
    && (if o.OfQuery? then SameBut(s.queries, s'.queries, o.query) else s'.queries == s.queries && SameRecords(s, s'))
    && (o.OfHistory? || s'.history == s.history)
    && (o.OfTemplates? || s'.templates == s.templates)
    && s'.applied == s.applied
  }

  /** Everything shown is what it was, and no session ended. */
  predicate SameShown(s: State, s': State) {
    && s'.conns == s.conns && s'.previews == s.previews && s'.definitions == s.definitions
    && s'.queries == s.queries && s'.history == s.history && s'.templates == s.templates
    && SameEnds(s, s') && s'.applied == s.applied
  }

  lemma ShownTouches(s: State, s': State, o: Owner)
    requires SameShown(s, s') && (o.OfQuery? || SameRecords(s, s'))
    ensures Touches(s, s', o)
  {
  }

  lemma NothingTouches(s: State, o: Owner)
    ensures Touches(s, s, o)
  {
  }

  lemma ThenTouches(s: State, s': State, s'': State, o: Owner)
    requires Touches(s, s', o) && Touches(s', s'', o)
    ensures Touches(s, s'', o)
  {
  }

  lemma ThenShown(s: State, s': State, s'': State, o: Owner)
    requires Touches(s, s', o) && SameShown(s', s'') && (o.OfQuery? || SameRecords(s', s''))
    ensures Touches(s, s'', o)
  {
  }

  lemma DropShows(s: State, ids: set<BusyId>)
    ensures SameShown(s, DropAll(s, ids)) && SameRecords(s, DropAll(s, ids))
  {
    hide Except;
  }

  lemma BeginShows(s: State, task: Task)
    ensures SameShown(s, Begin(s, task)) && SameRecords(s, Begin(s, task))
  {
  }

  lemma RecordStartShows(s: State, q: QueryId, c: ConnId, sql: string, issuer: Issuer)
    ensures SameShown(s, RecordStart(s, q, c, sql, issuer))
  {
  }

  lemma SettleShows(s: State, row: RowId, outcome: RunOutcome)
    ensures SameShown(s, Settle(s, row, outcome))
  {
  }

  lemma RunsShow(s: State, runs: map<QueryId, Recording>)
    ensures SameShown(s, s.(runs := runs)) && s.(runs := s.runs) == s
  {
  }

  lemma ShownTwice(s: State, s': State, s'': State)
    requires SameShown(s, s') && SameShown(s', s'')
    ensures SameShown(s, s'')
  {
  }

  lemma RecordEndShows(s: State, q: QueryId, outcome: RunOutcome)
    ensures SameShown(s, RecordEnd(s, q, outcome))
  {
    hide Settle, SameShown;
    if q in s.runs {
      match s.runs[q] {
        case Written(row) =>
          RunsShow(s, s.runs - {q});
          SettleShows(s.(runs := s.runs - {q}), row, outcome);
          ShownTwice(s, s.(runs := s.runs - {q}), RecordEnd(s, q, outcome));
        case Starting(_) => RunsShow(s, s.runs[q := Starting(Some(outcome))]);
      }
    } else {
      RunsShow(s, s.runs);
    }
  }

  lemma RecordedShows(s: State, q: QueryId, written: Result<RowId, AppError>)
    ensures SameShown(s, OnRecorded(s, q, written))
  {
    hide Settle, SameShown;
    var taken := s.(runs := s.runs - {q});
    RunsShow(s, s.runs - {q});
    if written.Success? && q in s.runs {
      RunsShow(s, s.runs[q := Written(written.value)]);
      if s.runs[q].Starting? && s.runs[q].outcome.Some? {
        SettleShows(taken, written.value, s.runs[q].outcome.value);
        ShownTwice(s, taken, Settle(taken, written.value, s.runs[q].outcome.value));
      }
    }
  }

  // ── one thing at a time ─────────────────────────────────────────────────

  lemma ConnTouches(s: State, c: ConnId, conn: Conn, node: T.NodeRef)
    ensures Touches(s, s.(conns := s.conns[c := conn]), OfConnection(c))
    ensures Touches(s, s.(conns := s.conns[c := conn]), OfNode(c, node))
  {
  }

  lemma PreviewTouches(s: State, rel: Relation, p: Preview)
    ensures Touches(s, s.(previews := s.previews[rel := p]), OfPreview(rel))
    ensures Touches(s, s.(previews := s.previews - {rel}), OfPreview(rel))
  {
  }

  lemma DefinitionTouches(s: State, rel: Relation, data: LoadState<string>)
    ensures Touches(s, s.(definitions := s.definitions[rel := data]), OfDefinition(rel))
    ensures Touches(s, s.(definitions := s.definitions - {rel}), OfDefinition(rel))
  {
  }

  lemma QueryTouches(s: State, q: QueryId, query: Query)
    ensures Touches(s, s.(queries := s.queries[q := query]), OfQuery(q))
    ensures Touches(s, s.(queries := s.queries - {q}), OfQuery(q))
  {
  }

  // ── actions ─────────────────────────────────────────────────────────────

  lemma ConnectTouches(s: State, profile: string, c: ConnId)
    ensures Touches(s, ConnectTo(s, profile, c), OfConnection(c))
  {
    hide Touches, Begin;
    ShownTouches(s, s, OfConnection(c));
    var connecting := s.(conns := s.conns[c := NewConn(Connecting)]);
    ConnTouches(s, c, NewConn(Connecting), T.ROOT);
    ConnTouches(s, c, NewConn(Broken(NO_DRIVER)), T.ROOT);
    BeginShows(connecting, Connect(c));
    ThenShown(s, connecting, Begin(connecting, Connect(c)), OfConnection(c));
  }

  lemma OpenNodeTouches(s: State, c: ConnId, node: T.NodeRef, toggle: bool)
    ensures Touches(s, OpenNode(s, c, node, toggle), OfNode(c, node))
  {
    hide Touches, Begin, T.Contains, T.Toggle, T.Expand, T.Flatten;
    ShownTouches(s, s, OfNode(c, node));
    if c in s.conns {
      if node.path == [] {
        ConnTouches(s, c, s.conns[c].(expanded := if toggle then !s.conns[c].expanded else true), node);
      } else {
        var (tree, _) := if toggle then T.Toggle(s.conns[c].tree, node) else T.Expand(s.conns[c].tree, node);
        ConnTouches(s, c, s.conns[c].(tree := tree, view := T.Flatten(tree, c)), node);
        BeginShows(WithTree(s, c, tree), ExpandNode(c, node));
        ThenShown(s, WithTree(s, c, tree), Begin(WithTree(s, c, tree), ExpandNode(c, node)), OfNode(c, node));
      }
    }
  }

  /** Opening a node changes what the tree shows and nothing else of a connection. */
  lemma OpenNodeConn(s: State, c: ConnId, node: T.NodeRef, toggle: bool)
    requires c in s.conns
    ensures var s' := OpenNode(s, c, node, toggle);
            var (tree, answer) := Opened(s, c, node, toggle);
            && c in s'.conns && SameEnds(s, s')
            && s'.conns[c].status == s.conns[c].status && s'.conns[c].session == s.conns[c].session
            && (s'.conns[c].tree == s.conns[c].tree
                || (s'.conns[c].tree == tree && (answer == T.Local || Fetches(s, c, node, toggle))))
  {
    hide T.Contains, T.Toggle, T.Expand, T.Flatten, Begin;
    var (tree, answer) := Opened(s, c, node, toggle);
    BeginShows(WithTree(s, c, tree), ExpandNode(c, node));
    if node.path == [] || SessionOf(s, c).None? || !T.Contains(s.conns[c].tree, node) {
      return;
    }
    assert answer == T.Local || Fetches(s, c, node, toggle);
  }

  lemma FetchTouches(s: State, s': State, rel: Relation, page: PageRequest, append: bool)
    requires Touches(s, s', OfPreview(rel))
    ensures Touches(s, Fetch(s', rel, page, append), OfPreview(rel))
  {
    hide Touches, Begin, DropAll;
    var o := OfPreview(rel);
    var dropped := if rel in s'.previews && s'.previews[rel].pending.Some?
                   then Drop(s', s'.previews[rel].pending.value.busy) else s';
    if rel in s'.previews && s'.previews[rel].pending.Some? {
      DropShows(s', {s'.previews[rel].pending.value.busy});
    }
    var begun := Begin(dropped, FetchPage(rel, page));
    BeginShows(dropped, FetchPage(rel, page));
    ThenShown(s, s', begun, o);
    if rel in s'.previews {
      var waiting := s'.previews[rel].(pending := Some(PendingPage(dropped.nextId, page, append)));
      PreviewTouches(begun, rel, waiting);
      ThenTouches(s, begun, begun.(previews := begun.previews[rel := waiting]), o);
    }
  }

  lemma PreviewTableTouches(s: State, rel: Relation)
    ensures Touches(s, PreviewTable(s, rel), OfPreview(rel))
  {
    hide Touches, Fetch;
    ShownTouches(s, s, OfPreview(rel));
    var page := FirstPage(s, if rel in s.previews then s.previews[rel].sort else None);
    var p := if rel in s.previews
             then s.previews[rel].(page := page, nextOffset := 0, data := Loading, loadedRows := 0, exhausted := false)
             else NewPreview(page);
    PreviewTouches(s, rel, p);
    FetchTouches(s, s.(previews := s.previews[rel := p]), rel, page, false);
  }

  lemma SortTouches(s: State, rel: Relation, column: nat)
    ensures Touches(s, SortPreview(s, rel, column), OfPreview(rel))
  {
    hide Touches, Fetch, NextSort;
    ShownTouches(s, s, OfPreview(rel));
    if rel in s.previews {
      var sort := Some(NextSort(s.previews[rel], column));
      var p := s.previews[rel].(sort := sort, data := Loading, loadedRows := 0, nextOffset := 0, exhausted := false);
      PreviewTouches(s, rel, p);
      FetchTouches(s, s.(previews := s.previews[rel := p]), rel, FirstPage(s, sort), false);
    }
  }

  lemma LoadMoreTouches(s: State, rel: Relation)
    ensures Touches(s, LoadMore(s, rel), OfPreview(rel))
  {
    hide Touches, Fetch;
    ShownTouches(s, s, OfPreview(rel));
    if rel in s.previews {
      FetchTouches(s, s, rel, s.previews[rel].page.(offset := s.previews[rel].nextOffset), true);
    }
  }

  lemma ForgetPreviewTouches(s: State, rel: Relation)
    ensures Touches(s, ForgetPreview(s, rel), OfPreview(rel))
  {
    hide Touches, DropAll;
    ShownTouches(s, s, OfPreview(rel));
    if rel in s.previews {
      var dropped := if s.previews[rel].pending.Some? then Drop(s, s.previews[rel].pending.value.busy) else s;
      if s.previews[rel].pending.Some? {
        DropShows(s, {s.previews[rel].pending.value.busy});
      }
      ShownTouches(s, dropped, OfPreview(rel));
      PreviewTouches(dropped, rel, s.previews[rel]);
      ThenTouches(s, dropped, dropped.(previews := dropped.previews - {rel}), OfPreview(rel));
    }
  }

  lemma DescribeTouches(s: State, rel: Relation, refresh: bool)
    ensures Touches(s, Describe(s, rel, refresh), OfDefinition(rel))
    ensures Touches(s, ForgetDefinition(s, rel), OfDefinition(rel))
  {
    hide Touches, DropAll, Begin, OwnedBy;
    var o := OfDefinition(rel);
    var ids := OwnedBy(s.busy, o);
    ShownTouches(s, s, o);
    DefinitionTouches(s, rel, Loading);
    var waiting := s.(definitions := s.definitions[rel := Loading]);
    DropShows(waiting, ids);
    BeginShows(DropAll(waiting, ids), DescribeTable(rel));
    ThenShown(s, waiting, Begin(DropAll(waiting, ids), DescribeTable(rel)), o);
    DropShows(s, ids);
    ShownTouches(s, DropAll(s, ids), o);
    DefinitionTouches(DropAll(s, ids), rel, Loading);
    ThenTouches(s, DropAll(s, ids), ForgetDefinition(s, rel), o);
  }

  lemma RunTouches(s: State, c: ConnId, q: QueryId, sql: string, issuer: Issuer)
    ensures Touches(s, RunQuery(s, c, q, sql, issuer), OfQuery(q))
    ensures Touches(s, EstimateQuery(s, c, q, sql), OfQuery(q))
  {
    hide Touches, RecordStart, Begin, SessionOf;
    ShownTouches(s, s, OfQuery(q));
    var query := Query(c, sql, None, Loading);
    var ready := s.(queries := s.queries[q := query]);
    QueryTouches(s, q, query);
    ReadyTouches(s, q, query, c, sql, issuer, Run(q));
    BeginShows(ready, Estimating(q));
    ThenShown(s, ready, Begin(ready, Estimating(q)), OfQuery(q));
  }

  lemma ReadyTouches(s: State, q: QueryId, query: Query, c: ConnId, sql: string, issuer: Issuer, task: Task)
    ensures Touches(s, Begin(RecordStart(s.(queries := s.queries[q := query]), q, c, sql, issuer), task), OfQuery(q))
  {
    hide Touches, RecordStart, Begin;
    var ready := s.(queries := s.queries[q := query]);
    QueryTouches(s, q, query);
    RecordStartShows(ready, q, c, sql, issuer);
    BeginShows(RecordStart(ready, q, c, sql, issuer), task);
    ThenShown(s, ready, Begin(RecordStart(ready, q, c, sql, issuer), task), OfQuery(q));
  }

  lemma ApproveTouches(s: State, q: QueryId, issuer: Issuer)
    ensures Touches(s, ApproveQuery(s, q, issuer), OfQuery(q))
  {
    hide Touches, RecordStart, Begin, SessionOf;
    ShownTouches(s, s, OfQuery(q));
    if q in s.queries && s.queries[q].needsApproval.Some? {
      var query := s.queries[q];
      ReadyTouches(s, q, query.(needsApproval := None, data := Loading), query.conn, query.sql, issuer,
                   RunOver(q, query.needsApproval.value));
    }
  }

  lemma ForgetQueryTouches(s: State, q: QueryId)
    ensures Touches(s, ForgetQuery(s, q), OfQuery(q))
  {
    hide Touches, DropAll, OwnedBy;
    var dropped := DropAll(s, OwnedBy(s.busy, OfQuery(q)));
    DropShows(s, OwnedBy(s.busy, OfQuery(q)));
    ShownTouches(s, dropped, OfQuery(q));
    QueryTouches(dropped, q, Query(0, "", None, Idle));
    ThenTouches(s, dropped, ForgetQuery(s, q), OfQuery(q));
  }

  lemma LibraryTouches(s: State, terms: string, writing: bool)
    ensures Touches(s, SearchHistory(s, terms), OfHistory)
    ensures Touches(s, WithLibrary(s, writing), OfTemplates)
  {
    hide Except, OwnedBy;
  }

  // ── giving up, and events ───────────────────────────────────────────────

  lemma AbandonTouches(s: State, o: Owner, reason: string)
    ensures Touches(s, Abandon(s, o, reason), o)
  {
    hide Touches, T.Flatten, T.FinishLoad, RecordEnd, OrFailed;
    ShownTouches(s, s, o);
    match o {
      case OfConnection(c) =>
        if c in s.conns {
          ConnTouches(s, c, s.conns[c].(status := Broken(reason)), T.ROOT);
        }
      case OfNode(c, node) =>
        if c in s.conns {
          var tree := T.FinishLoad(s.conns[c].tree, node, Failure(reason));
          ConnTouches(s, c, s.conns[c].(tree := tree, view := T.Flatten(tree, c)), node);
        }
      case OfHistory => HistoryTouches(s, s.history.(data := OrFailed(s.history.data, reason)), s.templates);
      case OfTemplates =>
        HistoryTouches(s, s.history, Templates(OrFailed(s.templates.data, reason), Some(reason)));
      case OfQuery(q) =>
        var outcome := if reason == CANCELLED then RunCancelled else RunFailed(reason);
        var failed := if q in s.queries
                      then s.(queries := s.queries[q := s.queries[q].(data := Failed(reason))])
                      else s;
        if q in s.queries {
          QueryTouches(s, q, s.queries[q].(data := Failed(reason)));
        }
        RecordEndShows(failed, q, outcome);
        ThenShown(s, failed, RecordEnd(failed, q, outcome), o);
      case OfDefinition(rel) => DefinitionTouches(s, rel, Failed(reason));
      case OfPreview(rel) =>
        if rel in s.previews {
          PreviewTouches(s, rel, Abandon(s, o, reason).previews[rel]);
        }
    }
  }

  lemma HistoryTouches(s: State, history: History, templates: Templates)
    ensures Touches(s, s.(history := history), OfHistory)
    ensures Touches(s, s.(templates := templates), OfTemplates)
  {
  }

  lemma SpareTouches(s: State, closed: seq<SessionId>, c: ConnId)
    ensures Touches(s, s.(outside := s.outside.(closed := closed)), OfConnection(c))
  {
  }

  lemma ConnectedTouches(s: State, c: ConnId, reply: Result<ConnectOutput, AppError>)
    ensures Touches(s, OnConnected(s, c, reply), OfConnection(c))
  {
    hide Touches, T.Flatten, T.SetRoots, Message;
    ShownTouches(s, s, OfConnection(c));
    match reply {
      case Success(out) =>
        var tree := T.SetRoots(out.roots);
        if c in s.conns {
          ConnTouches(s, c, s.conns[c].(status := Open, session := Some(out.session), access := out.access,
                                        tree := tree, view := T.Flatten(tree, c)), T.ROOT);
        }
        SpareTouches(s, s.outside.closed + [out.session.id], c);
      case Failure(e) =>
        if c in s.conns {
          ConnTouches(s, c, s.conns[c].(status := Broken(Message(e))), T.ROOT);
        }
    }
  }

  lemma LosingTouches(s: State, c: ConnId, conn: Conn, lost: seq<SessionId>, node: T.NodeRef)
    ensures Touches(s, s.(conns := s.conns[c := conn], outside := s.outside.(lost := lost)), OfConnection(c))
    ensures Touches(s, s.(conns := s.conns[c := conn], outside := s.outside.(lost := lost)), OfNode(c, node))
  {
  }

  lemma SessionDiedTouches(s: State, c: ConnId, node: T.NodeRef)
    ensures Touches(s, SessionDied(s, c), OfConnection(c))
    ensures Touches(s, SessionDied(s, c), OfNode(c, node))
  {
    hide Touches;
    NothingTouches(s, OfConnection(c));
    NothingTouches(s, OfNode(c, node));
    if c in s.conns {
      var conn := s.conns[c].(session := None, status := Broken(SESSION_CLOSED));
      if s.conns[c].session.Some? {
        LosingTouches(s, c, conn, s.outside.lost + [s.conns[c].session.value.id], node);
      } else {
        ConnTouches(s, c, conn, node);
      }
    }
  }

  lemma ExpandedTouches(s: State, c: ConnId, node: T.NodeRef, children: Result<T.Children, AppError>)
    ensures Touches(s, OnExpanded(s, c, node, children), OfNode(c, node))
  {
    hide Touches, SessionDied, T.FinishLoad, T.Flatten;
    var o := OfNode(c, node);
    ShownTouches(s, s, o);
    var outcome := match children case Success(v) => Success(v) case Failure(e) => Failure(Message(e));
    var finished := s;
    if c in s.conns {
      var tree := T.FinishLoad(s.conns[c].tree, node, outcome);
      finished := WithTree(s, c, tree);
      ConnTouches(s, c, s.conns[c].(tree := tree, view := T.Flatten(tree, c)), node);
    }
    SessionDiedTouches(finished, c, node);
    ThenTouches(s, finished, SessionDied(finished, c), o);
  }

  lemma DescribedTouches(s: State, rel: Relation, detail: Result<string, AppError>)
    ensures Touches(s, OnDescribed(s, rel, detail), OfDefinition(rel))
  {
    hide Touches, Answered;
    ShownTouches(s, s, OfDefinition(rel));
    DefinitionTouches(s, rel, Answered(detail));
  }

  lemma RanShows(s: State, q: QueryId, output: Result<RunOutput, AppError>)
    ensures OnRan(s, q, output).queries ==
            if q in s.queries then s.queries[q := Heard(s.queries[q], output)] else s.queries
  {
    hide RecordEnd, Heard, OutcomeOf;
    if q in s.queries {
      RecordEndShows(s.(queries := s.queries[q := Heard(s.queries[q], output)]), q, OutcomeOf(output));
    }
  }

  lemma RanTouches(s: State, q: QueryId, output: Result<RunOutput, AppError>)
    ensures Touches(s, OnRan(s, q, output), OfQuery(q))
  {
    hide Touches, RecordEnd, Heard, OutcomeOf;
    NothingTouches(s, OfQuery(q));
    if q in s.queries {
      var told := s.(queries := s.queries[q := Heard(s.queries[q], output)]);
      QueryTouches(s, q, Heard(s.queries[q], output));
      RecordEndShows(told, q, OutcomeOf(output));
      ThenShown(s, told, OnRan(s, q, output), OfQuery(q));
    }
  }

  lemma SearchedTouches(s: State, terms: string, entries: Result<seq<string>, AppError>)
    ensures Touches(s, OnSearched(s, terms, entries), OfHistory)
  {
    hide Touches, Answered;
    ShownTouches(s, s, OfHistory);
    HistoryTouches(s, s.history.(data := Answered(entries)), s.templates);
  }

  lemma EstimatedTouches(s: State, q: QueryId, estimate: Result<A.Estimate, AppError>)
    ensures Touches(s, OnEstimated(s, q, estimate), OfQuery(q))
  {
    hide Touches, Message;
    ShownTouches(s, s, OfQuery(q));
    if q in s.queries {
      QueryTouches(s, q, OnEstimated(s, q, estimate).queries[q]);
    }
  }

  lemma ToldTouches(s: State, rel: Relation, page: PageRequest, rows: Result<ResultSet<Row>, AppError>)
    ensures Touches(s, Told(s, rel, page, rows), OfPreview(rel))
  {
    hide Touches, Landed, NotLanded, Message;
    ShownTouches(s, s, OfPreview(rel));
    if Awaited(s, rel, page) {
      PreviewTouches(s, rel, Told(s, rel, page, rows).previews[rel]);
    }
  }

  lemma LandingIsAnEnd(p: Preview, append: bool, page: PageRequest, result: ResultSet<Row>, why: string)
    ensures Landed(p, append, page, result).pending.None? && !Landed(p, append, page, result).data.Loading?
    ensures NotLanded(p, append, why).pending.None? && !NotLanded(p, append, why).data.Loading?
  {
    hide Append, IsEnd, New, Reached;
  }

  lemma ToldShows(s: State, rel: Relation, page: PageRequest, rows: Result<ResultSet<Row>, AppError>)
    ensures var told := Told(s, rel, page, rows);
            if Awaited(s, rel, page)
            then rel in told.previews && told.previews[rel].pending.None? && !told.previews[rel].data.Loading?
            else told == s
  {
    hide Landed, NotLanded, Message;
    if Awaited(s, rel, page) {
      var result := if rows.Success? then rows.value else ResultSet([], [], None);
      var why := if rows.Success? then "" else Message(rows.error);
      LandingIsAnEnd(s.previews[rel], s.previews[rel].pending.value.append, page, result, why);
    }
  }

  lemma SessionDiedPreviews(s: State, c: ConnId)
    ensures SessionDied(s, c).previews == s.previews
  {
  }

  // ── what is called for each ─────────────────────────────────────────────

  lemma Applied(s: State, a: Action, issuer: Issuer)
    ensures a.DoConnect? ==> Apply(s, a, issuer) == ConnectTo(s, a.profile, a.conn)
    ensures a.DoDisconnect? ==> Apply(s, a, issuer) == Disconnect(s, a.conn)
    ensures a.DoToggleNode? ==> Apply(s, a, issuer) == OpenNode(s, a.conn, a.node, true)
    ensures a.DoExpandNode? ==> Apply(s, a, issuer) == OpenNode(s, a.conn, a.node, false)
    ensures a.DoPreview? ==> Apply(s, a, issuer) == PreviewTable(s, a.rel)
    ensures a.DoSort? ==> Apply(s, a, issuer) == SortPreview(s, a.rel, a.column)
    ensures a.DoLoadMore? ==> Apply(s, a, issuer) == LoadMore(s, a.rel)
    ensures a.DoForgetPreview? ==> Apply(s, a, issuer) == ForgetPreview(s, a.rel)
    ensures a.DoDescribe? ==> Apply(s, a, issuer) == Describe(s, a.rel, a.refresh)
    ensures a.DoForgetDefinition? ==> Apply(s, a, issuer) == ForgetDefinition(s, a.rel)
    ensures a.DoRun? ==> Apply(s, a, issuer) == RunQuery(s, a.conn, a.query, a.sql, issuer)
    ensures a.DoEstimate? ==> Apply(s, a, issuer) == EstimateQuery(s, a.conn, a.query, a.sql)
    ensures a.DoApprove? ==> Apply(s, a, issuer) == ApproveQuery(s, a.query, issuer)
    ensures a.DoForgetQuery? ==> Apply(s, a, issuer) == ForgetQuery(s, a.query)
    ensures a.DoCancel? ==> Apply(s, a, issuer) == Cancel(s, a.id)
    ensures a.DoLoadTemplates? ==> Apply(s, a, issuer) == WithLibrary(s, false)
    ensures a.DoWriteTemplate? ==> Apply(s, a, issuer) == WithLibrary(s, true)
    ensures a.DoSearch? ==> Apply(s, a, issuer) == SearchHistory(s, a.terms)
    ensures a.DoQuit? ==> Apply(s, a, issuer) == s.(shouldQuit := true)
  {
    hide ConnectTo, Disconnect, OpenNode, PreviewTable, Describe, ForgetDefinition, SortPreview, LoadMore,
         ForgetPreview, RunQuery, EstimateQuery, ApproveQuery, ForgetQuery, SearchHistory, WithLibrary, Cancel;
  }

  lemma Handled(s: State, e: Event)
    ensures e.Connected? ==> Handle(s, e) == OnConnected(Drop(s, e.busy), e.conn, e.reply)
    ensures e.Expanded? ==> Handle(s, e) == OnExpanded(Drop(s, e.busy), e.conn, e.node, e.children)
    ensures e.Previewed? ==> Handle(s, e) == OnPreviewed(Drop(s, e.busy), e.rel, e.page, e.rows)
    ensures e.Described? ==> Handle(s, e) == OnDescribed(Drop(s, e.busy), e.rel, e.detail)
    ensures e.Ran? ==> Handle(s, e) == OnRan(Drop(s, e.busy), e.query, e.output)
    ensures e.Estimated? ==> Handle(s, e) == OnEstimated(Drop(s, e.busy), e.query, e.estimate)
    ensures e.Recorded? ==> Handle(s, e) == OnRecorded(s, e.query, e.written)
  {
    hide DropAll, OnConnected, OnExpanded, OnPreviewed, OnDescribed, OnRan, OnEstimated, OnSearched, OnRecorded,
         Answered;
  }

  // ── what each is about ──────────────────────────────────────────────────

  /** What an action is about. What a cancelled row was for is what cancelling it is about. */
  function Subject(s: State, a: Action): Owner {
    match a
    case DoConnect(_, c) => OfConnection(c)
    case DoDisconnect(c) => OfConnection(c)
    case DoToggleNode(c, node) => OfNode(c, node)
    case DoExpandNode(c, node) => OfNode(c, node)
    case DoPreview(rel) => OfPreview(rel)
    case DoSort(rel, _) => OfPreview(rel)
    case DoLoadMore(rel) => OfPreview(rel)
    case DoForgetPreview(rel) => OfPreview(rel)
    case DoDescribe(rel, _) => OfDefinition(rel)
    case DoForgetDefinition(rel) => OfDefinition(rel)
    case DoRun(_, q, _) => OfQuery(q)
    case DoEstimate(_, q, _) => OfQuery(q)
    case DoApprove(q) => OfQuery(q)
    case DoForgetQuery(q) => OfQuery(q)
    case DoSearch(_) => OfHistory
    case DoCancel(id) => if RowOf(s.busy, id).Some? then RowOf(s.busy, id).value.owner else OfTemplates
    case DoLoadTemplates => OfTemplates
    case DoWriteTemplate => OfTemplates
    case DoQuit => OfTemplates
  }

  lemma CancelTouches(s: State, id: BusyId)
    ensures Touches(s, Cancel(s, id), Subject(s, DoCancel(id)))
  {
    hide RowOf, DropAll, Abandon, Touches;
    var dropped := Drop(s, id);
    var o := Subject(s, DoCancel(id));
    DropShows(s, {id});
    ShownTouches(s, dropped, o);
    if RowOf(s.busy, id).Some? {
      AbandonTouches(dropped, o, CANCELLED);
      ThenTouches(s, dropped, Cancel(s, id), o);
    }
  }

  /** Every action but a disconnection changes what it is about and nothing else. */
  lemma ApplyTouches(s: State, a: Action, issuer: Issuer)
    requires !a.DoDisconnect?
    ensures Touches(s, Apply(s, a, issuer), Subject(s, a))
  {
    hide ConnectTo, OpenNode, PreviewTable, Describe, ForgetDefinition, SortPreview, LoadMore, RowOf,
         ForgetPreview, RunQuery, EstimateQuery, ApproveQuery, ForgetQuery, SearchHistory, WithLibrary, Cancel, Touches;
    match a {
      case DoConnect(profile, c) => ConnectTouches(s, profile, c);
      case DoToggleNode(c, node) => OpenNodeTouches(s, c, node, true);
      case DoExpandNode(c, node) => OpenNodeTouches(s, c, node, false);
      case DoPreview(rel) => PreviewTableTouches(s, rel);
      case DoSort(rel, column) => SortTouches(s, rel, column);
      case DoLoadMore(rel) => LoadMoreTouches(s, rel);
      case DoForgetPreview(rel) => ForgetPreviewTouches(s, rel);
      case DoDescribe(rel, refresh) => DescribeTouches(s, rel, refresh);
      case DoForgetDefinition(rel) => DescribeTouches(s, rel, false);
      case DoRun(c, q, sql) => RunTouches(s, c, q, sql, issuer);
      case DoEstimate(c, q, sql) => RunTouches(s, c, q, sql, issuer);
      case DoApprove(q) => ApproveTouches(s, q, issuer);
      case DoForgetQuery(q) => ForgetQueryTouches(s, q);
      case DoLoadTemplates => LibraryTouches(s, "", false);
      case DoWriteTemplate => LibraryTouches(s, "", true);
      case DoSearch(terms) => LibraryTouches(s, terms, false);
      case DoCancel(id) => CancelTouches(s, id);
      case DoQuit => QuitTouches(s);
    }
  }

  lemma QuitTouches(s: State)
    ensures Touches(s, s.(shouldQuit := true), OfTemplates)
  {
  }

  /** What an event is about. */
  function About(e: Event): Owner {
    match e
    case Connected(c, _, _) => OfConnection(c)
    case Expanded(c, node, _, _) => OfNode(c, node)
    case Previewed(rel, _, _, _) => OfPreview(rel)
    case Described(rel, _, _) => OfDefinition(rel)
    case Ran(q, _, _) => OfQuery(q)
    case Estimated(q, _, _) => OfQuery(q)
    case Searched(_, _, _) => OfHistory
    case LibraryAnswered(_, _, _) => OfTemplates
    case Recorded(q, _) => OfQuery(q)
  }

  /** Every event changes what it is about and nothing else, unless a page finds that the session is gone. */
  lemma HandleTouches(s: State, e: Event)
    requires !e.Previewed?
    ensures Touches(s, Handle(s, e), About(e))
  {
    hide Touches, DropAll, OnConnected, OnExpanded, OnPreviewed, OnDescribed, OnRan, OnEstimated, OnSearched,
         OnRecorded, Answered;
    if e.Recorded? {
      RecordedShows(s, e.query, e.written);
      ShownTouches(s, Handle(s, e), OfQuery(e.query));
      return;
    }
    var dropped := Drop(s, e.busy);
    DropShows(s, {e.busy});
    ShownTouches(s, dropped, About(e));
    match e {
      case Connected(c, _, reply) => ConnectedTouches(dropped, c, reply);
      case Expanded(c, node, _, children) => ExpandedTouches(dropped, c, node, children);
      case Described(rel, _, detail) => DescribedTouches(dropped, rel, detail);
      case Ran(q, _, output) => RanTouches(dropped, q, output);
      case Estimated(q, _, estimate) => EstimatedTouches(dropped, q, estimate);
      case Searched(_, terms, entries) => SearchedTouches(dropped, terms, entries);
      case LibraryAnswered(_, wrote, list) =>
        HistoryTouches(dropped, dropped.history, Templates(Answered(list), wrote));
    }
    ThenTouches(s, dropped, Handle(s, e), About(e));
  }

  /** A page changes its preview; and then the session may turn out to be gone. */
  lemma PreviewedTouches(s: State, e: Event)
    requires e.Previewed?
    ensures var told := Told(Drop(s, e.busy), e.rel, e.page, e.rows);
            && Touches(s, told, OfPreview(e.rel))
            && (Handle(s, e) == told || Handle(s, e) == SessionDied(told, e.rel.conn))
  {
    hide Touches, DropAll, Told, SessionDied, Awaited;
    var dropped := Drop(s, e.busy);
    DropShows(s, {e.busy});
    ShownTouches(s, dropped, OfPreview(e.rel));
    ToldTouches(dropped, e.rel, e.page, e.rows);
    ThenTouches(s, dropped, Told(dropped, e.rel, e.page, e.rows), OfPreview(e.rel));
  }

  // ── disconnecting ───────────────────────────────────────────────────────

  /** One of the rows is for the query. */
  predicate Named(rows: seq<BusyItem>, q: QueryId) {
    exists row :: row in rows && row.owner == OfQuery(q)
  }

  /** The queries named have failed, and nothing else shown is different. */
  ghost predicate FailsNamed(s: State, s': State, rows: seq<BusyItem>) {
    && SameEnds(s, s') && s'.applied == s.applied
    && s'.conns == s.conns && s'.previews == s.previews && s'.definitions == s.definitions
    && s'.history == s.history && s'.templates == s.templates
    && (forall q :: q in s'.queries <==> q in s.queries)
    && (forall q :: q in s.queries ==>
          s'.queries[q] == if Named(rows, q) then s.queries[q].(data := Failed(DISCONNECTED)) else s.queries[q])
  }

  lemma DropOrphanFails(s: State, row: BusyItem)
    ensures FailsNamed(s, DropOrphan(s, row), [row])
  {
    hide DropAll, RecordEnd;
    DropShows(s, {row.id});
    var dropped := Drop(s, row.id);
    assert forall q :: Named([row], q) <==> row.owner == OfQuery(q) by {
      assert row in [row];
    }
    if row.owner.OfQuery? {
      var q := row.owner.query;
      var failed := if q in s.queries
                    then dropped.(queries := s.queries[q := s.queries[q].(data := Failed(DISCONNECTED))])
                    else dropped;
      RecordEndShows(failed, q, RunFailed(DISCONNECTED));
    }
  }

  lemma FailsMore(s: State, s': State, s'': State, rows: seq<BusyItem>)
    requires rows != [] && FailsNamed(s, s', [rows[0]]) && FailsNamed(s', s'', rows[1..])
    ensures FailsNamed(s, s'', rows)
  {
    forall q
      ensures Named(rows, q) <==> Named([rows[0]], q) || Named(rows[1..], q)
    {
      assert rows == [rows[0]] + rows[1..];
    }
  }

  lemma {:induction false} OrphansFail(s: State, rows: seq<BusyItem>)
    ensures FailsNamed(s, DropOrphans(s, rows), rows)
    decreases |rows|
  {
    hide DropOrphan;
    if rows != [] {
      hide FailsNamed;
      DropOrphanFails(s, rows[0]);
      OrphansFail(DropOrphan(s, rows[0]), rows[1..]);
      FailsMore(s, DropOrphan(s, rows[0]), DropOrphans(s, rows), rows);
    }
  }

  lemma {:induction false} OrphansBelong(s: State, busy: seq<BusyItem>, c: ConnId)
    ensures forall row :: row in Orphans(s, busy, c) <==> row in busy && BelongsTo(s, row.owner, c)
  {
    if busy != [] {
      OrphansBelong(s, busy[1..], c);
      assert busy == [busy[0]] + busy[1..];
    }
  }

  /** What a connection that was closed looks like. */
  lemma DisconnectShows(s: State, c: ConnId)
    ensures var s' := Disconnect(s, c);
            var rows := Orphans(CloseConn(s, c), s.busy, c);
            && SameBut(s.conns, s'.conns, c) && (c in s'.conns <==> c in s.conns)
            && (c in s.conns ==>
                  s'.conns[c] == s.conns[c].(session := None, status := Closed, tree := T.EMPTY, view := []))
            && (forall rel :: rel in s'.previews <==> rel in s.previews && rel.conn != c)
            && (forall rel :: rel in s'.previews ==> s'.previews[rel] == s.previews[rel])
            && (forall rel :: rel in s'.definitions <==> rel in s.definitions && rel.conn != c)
            && (forall rel :: rel in s'.definitions ==> s'.definitions[rel] == s.definitions[rel])
            && s'.history == s.history && s'.templates == s.templates
            && SameEnds(CloseConn(s, c), s') && s'.applied == s.applied
            && (forall q :: q in s'.queries <==> q in s.queries)
            && (forall q :: q in s.queries ==>
                  s'.queries[q] == if Named(rows, q) then s.queries[q].(data := Failed(DISCONNECTED)) else s.queries[q])
  {
    hide DropOrphans, Orphans, Named;
    var closed := CloseConn(s, c);
    OrphansFail(closed, Orphans(closed, s.busy, c));
  }

  lemma CloseConnKeeps(s: State, c: ConnId)
    ensures var s' := CloseConn(s, c); s'.queries == s.queries && s'.busy == s.busy
  {
  }
}
