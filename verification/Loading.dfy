/**
 Nothing is stuck: whatever is shown as loading has a task working on it and a
 row that can be cancelled, in every state of every run.
 */
module Loading {
  import opened Wrappers
  import opened Store
  import opened Runs
  import opened Rows
  import opened Frames

  /** What the row is for is shown as loading. */
  predicate LoadingAt(s: State, owner: Owner) {
    match owner
    case OfConnection(c) => c in s.conns && s.conns[c].status == Connecting
    case OfNode(c, node) => c in s.conns && node in s.conns[c].tree.status && s.conns[c].tree.status[node] == T.Loading
    case OfPreview(rel) => rel in s.previews && s.previews[rel].data.Loading?
    case OfDefinition(rel) => rel in s.definitions && s.definitions[rel].Loading?
    case OfQuery(q) => q in s.queries && s.queries[q].data.Loading?
    case OfHistory => s.history.data.Loading?
    case OfTemplates => s.templates.data.Loading?
  }

  predicate Working(tasks: map<BusyId, Task>, owner: Owner) {
    exists b :: b in tasks && OwnerOf(tasks[b]) == owner
  }

  /** No row is for it: what each `*_settled` predicate of a snapshot asks. */
  predicate Settled(s: State, owner: Owner) {
    forall i :: 0 <= i < |s.busy| ==> s.busy[i].owner != owner
  }

  ghost predicate Tracked(s: State) {
    forall owner: Owner :: LoadingAt(s, owner) ==> Working(s.tasks, owner)
  }

  /** A preview waiting for a page has the task that fetches that page. */
  predicate PageTracked(p: Preview, rel: Relation, tasks: map<BusyId, Task>) {
    && (p.data.Loading? ==> p.pending.Some?)
    && (p.pending.Some? ==>
          p.pending.value.busy in tasks && tasks[p.pending.value.busy] == FetchPage(rel, p.pending.value.page))
  }

  predicate PagesTracked(s: State) {
    forall rel :: rel in s.previews ==> PageTracked(s.previews[rel], rel, s.tasks)
  }

  /** A search that is running is for the words in the box. */
  predicate SearchTracked(s: State) {
    && (forall b :: b in s.tasks && s.tasks[b].Searching? ==> s.tasks[b].terms == s.history.terms)
    && (forall b :: b in s.tasks && s.tasks[b].Searching? ==> s.library)
  }

  ghost predicate NothingStuck(s: State) {
    BusyOk(s) && Tracked(s) && PagesTracked(s) && SearchTracked(s)
  }

  // ── one step ────────────────────────────────────────────────────────────

  /** Whatever ended was for `owner`. */
  predicate EndsOnly(tasks: map<BusyId, Task>, ended: set<BusyId>, owner: Owner) {
    forall b :: b in ended && b in tasks ==> OwnerOf(tasks[b]) == owner
  }

  /** Nothing starts loading but what `o` is for. */
  ghost predicate LoadsOnly(s: State, s': State, o: Owner) {
    forall owner: Owner :: owner != o && LoadingAt(s', owner) ==> LoadingAt(s, owner)
  }

  /** A preview that `o` is not for is what it was. */
  predicate PagesElsewhere(s: State, s': State, o: Owner) {
    forall rel :: rel in s'.previews && OfPreview(rel) != o ==>
      && rel in s.previews
      && s'.previews[rel].pending == s.previews[rel].pending
      && s'.previews[rel].data == s.previews[rel].data
  }

  /** Whoever `o` is for is worked on, if it loads. */
  predicate WorkedOn(s: State, o: Owner) {
    && (LoadingAt(s, o) ==> Working(s.tasks, o))
    && (o.OfPreview? && o.rel in s.previews ==> PageTracked(s.previews[o.rel], o.rel, s.tasks))
  }

  lemma StillWorking(s: State, s': State, ended: set<BusyId>, begun: Option<Task>, o: Owner, owner: Owner)
    requires BusyOk(s) && Works(s, s', ended, begun) && EndsOnly(s.tasks, ended, o) && owner != o
    requires Working(s.tasks, owner)
    ensures Working(s'.tasks, owner)
  {
    hide Mirrors, Distinct, Except;
    var b :| b in s.tasks && OwnerOf(s.tasks[b]) == owner;
    assert b in s'.tasks && s'.tasks[b] == s.tasks[b];
  }

  lemma BegunIsWorking(s: State, s': State, ended: set<BusyId>, task: Task)
    requires Works(s, s', ended, Some(task))
    ensures Working(s'.tasks, OwnerOf(task))
  {
    hide Except;
    assert s'.tasks[s.nextId] == task;
  }

  lemma PagesStillTracked(s: State, s': State, ended: set<BusyId>, begun: Option<Task>, o: Owner)
    requires BusyOk(s) && PagesTracked(s)
    requires Works(s, s', ended, begun) && EndsOnly(s.tasks, ended, o) && PagesElsewhere(s, s', o) && WorkedOn(s', o)
    ensures PagesTracked(s')
  {
    hide Mirrors, Distinct, Except, LoadingAt, Working;
    forall rel | rel in s'.previews
      ensures PageTracked(s'.previews[rel], rel, s'.tasks)
    {
      if OfPreview(rel) != o && s.previews[rel].pending.Some? {
        assert PageTracked(s.previews[rel], rel, s.tasks);
        var b := s.previews[rel].pending.value.busy;
        assert b !in ended;
        assert s'.tasks[b] == s.tasks[b];
      }
    }
  }

  lemma SearchStillTracked(s: State, s': State, ended: set<BusyId>, begun: Option<Task>, o: Owner)
    requires SearchTracked(s) && Works(s, s', ended, begun) && Touches(s, s', o)
    requires o.OfHistory? ==> s'.history.terms == s.history.terms
    requires begun.Some? ==> OwnerOf(begun.value) == o && !begun.value.Searching?
    ensures SearchTracked(s')
  {
    hide Except, SameBut;
  }

  /** In a connection that `o` is for, nothing else starts loading. */
  ghost predicate ConnLoadsOnly(s: State, s': State, o: Owner) {
    o.OfConnection? || o.OfNode? ==>
      && (o != OfConnection(o.conn) && LoadingAt(s', OfConnection(o.conn)) ==> LoadingAt(s, OfConnection(o.conn)))
      && forall node :: o != OfNode(o.conn, node) && LoadingAt(s', OfNode(o.conn, node)) ==>
           LoadingAt(s, OfNode(o.conn, node))
  }

  lemma TouchedLoadsOnly(s: State, s': State, o: Owner)
    requires Touches(s, s', o) && ConnLoadsOnly(s, s', o)
    ensures LoadsOnly(s, s', o) && PagesElsewhere(s, s', o)
  {
  }

  /** A step that is about one owner keeps everything else as it was. */
  lemma StepIsNotStuck(s: State, s': State, ended: set<BusyId>, begun: Option<Task>, o: Owner)
    requires NothingStuck(s)
    requires Works(s, s', ended, begun) && EndsOnly(s.tasks, ended, o)
    requires Touches(s, s', o) && ConnLoadsOnly(s, s', o) && WorkedOn(s', o) && SearchTracked(s')
    ensures NothingStuck(s')
  {
    hide BusyOk, Works, EndsOnly, SearchTracked, PagesTracked, PagesElsewhere, LoadingAt, Working, PageTracked, Touches,
         ConnLoadsOnly;
    TouchedLoadsOnly(s, s', o);
    WorkKeepsRows(s, s', ended, begun);
    PagesStillTracked(s, s', ended, begun, o);
    forall owner: Owner | LoadingAt(s', owner)
      ensures Working(s'.tasks, owner)
    {
      if owner != o {
        StillWorking(s, s', ended, begun, o, owner);
      }
    }
  }

  lemma WorkedOnHere(s: State, o: Owner)
    requires NothingStuck(s)
    ensures WorkedOn(s, o)
  {
    hide BusyOk, SearchTracked, LoadingAt, Working, PageTracked;
  }

  /** A step that begins a task for `o`, and leaves what the search is for. */
  lemma BegunIsNotStuck(s: State, s': State, ended: set<BusyId>, task: Task)
    requires NothingStuck(s) && Works(s, s', ended, Some(task)) && EndsOnly(s.tasks, ended, OwnerOf(task))
    requires Touches(s, s', OwnerOf(task)) && ConnLoadsOnly(s, s', OwnerOf(task)) && !task.Searching?
    requires task.FetchPage? && task.rel in s'.previews ==> PageTracked(s'.previews[task.rel], task.rel, s'.tasks)
    ensures NothingStuck(s')
  {
    hide BusyOk, Works, EndsOnly, SearchTracked, PagesTracked, LoadingAt, Working, PageTracked, Touches, ConnLoadsOnly,
         Tracked;
    BegunIsWorking(s, s', ended, task);
    SearchStillTracked(s, s', ended, Some(task), OwnerOf(task));
    StepIsNotStuck(s, s', ended, Some(task), OwnerOf(task));
  }

  /** A step that begins nothing, and leaves `o` not loading. */
  lemma EndedIsNotStuck(s: State, s': State, ended: set<BusyId>, o: Owner)
    requires NothingStuck(s) && Works(s, s', ended, None) && EndsOnly(s.tasks, ended, o)
    requires Touches(s, s', o) && ConnLoadsOnly(s, s', o) && (o.OfHistory? ==> s'.history.terms == s.history.terms)
    requires !LoadingAt(s', o)
    requires o.OfPreview? && o.rel in s'.previews ==> s'.previews[o.rel].pending.None?
    ensures NothingStuck(s')
  {
    hide BusyOk, Works, EndsOnly, SearchTracked, PagesTracked, Working, Touches, ConnLoadsOnly, Tracked;
    SearchStillTracked(s, s', ended, None, o);
    StepIsNotStuck(s, s', ended, None, o);
  }

  /** A step that begins and ends nothing, and leaves `o` loading only if it was. */
  lemma QuietIsNotStuck(s: State, s': State, o: Owner)
    requires NothingStuck(s) && Works(s, s', {}, None)
    requires Touches(s, s', o) && ConnLoadsOnly(s, s', o) && !o.OfHistory? && !o.OfPreview?
    requires LoadingAt(s', o) ==> LoadingAt(s, o)
    ensures NothingStuck(s')
  {
    hide BusyOk, Works, SearchTracked, PagesTracked, Working, Touches, ConnLoadsOnly, Tracked, LoadingAt;
    SearchStillTracked(s, s', {}, None, o);
    WorkedOnHere(s, o);
    if LoadingAt(s', o) {
      SameTasksWork(s, s', o);
    }
    StepIsNotStuck(s, s', {}, None, o);
  }

  lemma SameTasksWork(s: State, s': State, o: Owner)
    requires Works(s, s', {}, None) && Working(s.tasks, o)
    ensures Working(s'.tasks, o)
  {
    hide Except;
    assert s.tasks - {} == s.tasks;
  }

  /** A step that does nothing that is shown. */
  lemma IdleIsNotStuck(s: State, s': State)
    requires NothingStuck(s) && SameWork(s, s') && SameShown(s, s')
    ensures NothingStuck(s')
  {
    hide Touches, Works, BusyOk;
    QuietWorks(s, s');
    ShownTouches(s, s', OfQuery(0));
    QuietIsNotStuck(s, s', OfQuery(0));
  }

  /** Neither does counting. */
  lemma CountingIsNotStuck(s: State)
    requires NothingStuck(s)
    ensures NothingStuck(s.(applied := s.applied + 1))
  {
    hide Mirrors, Distinct, KnownTasks, Working, PageTracked;
    var s' := s.(applied := s.applied + 1);
    forall owner: Owner | LoadingAt(s', owner)
      ensures Working(s'.tasks, owner)
    {
      assert LoadingAt(s, owner);
    }
  }

  // ── what may end ────────────────────────────────────────────────────────

  lemma OwnedEndsOnly(s: State, owner: Owner)
    requires BusyOk(s)
    ensures EndsOnly(s.tasks, OwnedBy(s.busy, owner), owner)
  {
    forall b | b in OwnedBy(s.busy, owner)
      ensures b in s.tasks && OwnerOf(s.tasks[b]) == owner
    {
      var i :| 0 <= i < |s.busy| && s.busy[i].owner == owner && s.busy[i].id == b;
      ItemAt(s.busy, i);
    }
  }

  lemma SupersededEndsOnly(s: State, rel: Relation)
    requires PagesTracked(s)
    ensures EndsOnly(s.tasks, Superseded(s, rel), OfPreview(rel))
  {
    if rel in s.previews && s.previews[rel].pending.Some? {
      assert PageTracked(s.previews[rel], rel, s.tasks);
    }
  }

  lemma FewerEndOnly(tasks: map<BusyId, Task>, fewer: set<BusyId>, ended: set<BusyId>, owner: Owner)
    requires EndsOnly(tasks, ended, owner) && fewer <= ended
    ensures EndsOnly(tasks, fewer, owner)
  {
  }

  // ── actions ─────────────────────────────────────────────────────────────

  lemma ConnectIsNotStuck(s: State, profile: string, c: ConnId)
    requires NothingStuck(s)
    ensures NothingStuck(ConnectTo(s, profile, c))
  {
    hide NothingStuck, Works, Touches;
    var s' := ConnectTo(s, profile, c);
    var begun := ConnectWorks(s, profile, c);
    ConnectTouches(s, profile, c);
    if begun.Some? {
      BegunIsNotStuck(s, s', {}, Connect(c));
    } else {
      QuietIsNotStuck(s, s', OfConnection(c));
    }
  }

  lemma ToggleLoadsOnly(t: T.Tree, n: T.NodeRef, toggle: bool)
    ensures var (t', answer) := if toggle then T.Toggle(t, n) else T.Expand(t, n);
            && (forall m :: m != n && m in t'.status ==> m in t.status && t'.status[m] == t.status[m])
            && (answer == T.Local && n in t'.status && t'.status[n] == T.Loading ==>
                  n in t.status && t.status[n] == T.Loading)
  {
  }

  lemma NoSuchConn(s: State, c: ConnId, node: T.NodeRef, toggle: bool)
    requires c !in s.conns
    ensures OpenNode(s, c, node, toggle) == s
  {
  }

  lemma OpenNodeLoadsOnly(s: State, c: ConnId, node: T.NodeRef, toggle: bool)
    ensures ConnLoadsOnly(s, OpenNode(s, c, node, toggle), OfNode(c, node))
    ensures !Fetches(s, c, node, toggle) && LoadingAt(OpenNode(s, c, node, toggle), OfNode(c, node)) ==>
              LoadingAt(s, OfNode(c, node))
  {
    hide OpenNode, Fetches, T.Toggle, T.Expand, Touches;
    if c in s.conns {
      OpenNodeConn(s, c, node, toggle);
      ToggleLoadsOnly(s.conns[c].tree, node, toggle);
    } else {
      NoSuchConn(s, c, node, toggle);
    }
  }

  lemma OpenNodeIsNotStuck(s: State, c: ConnId, node: T.NodeRef, toggle: bool)
    requires NothingStuck(s)
    ensures NothingStuck(OpenNode(s, c, node, toggle))
  {
    hide NothingStuck, Works, Touches, OpenNode, ConnLoadsOnly, Fetches, LoadingAt;
    var s' := OpenNode(s, c, node, toggle);
    var begun := OpenNodeWorks(s, c, node, toggle);
    OpenNodeTouches(s, c, node, toggle);
    OpenNodeLoadsOnly(s, c, node, toggle);
    if begun.Some? {
      BegunIsNotStuck(s, s', {}, ExpandNode(c, node));
    } else {
      QuietIsNotStuck(s, s', OfNode(c, node));
    }
  }

  /** A page is asked for, of a preview that shows something or says it is loading. */
  lemma FetchIsTracked(s: State, rel: Relation, page: PageRequest, append: bool)
    requires SessionOf(s, rel.conn).Some? && rel in s.previews
    ensures var s' := Fetch(s, rel, page, append);
            rel in s'.previews && PageTracked(s'.previews[rel], rel, s'.tasks)
  {
    hide Except;
  }

  lemma FetchIsNotStuck(s: State, s1: State, rel: Relation, page: PageRequest, append: bool)
    requires NothingStuck(s) && SameWork(s, s1) && Touches(s, s1, OfPreview(rel))
    requires Superseded(s1, rel) == Superseded(s, rel)
    requires SessionOf(s1, rel.conn).Some? && rel in s1.previews
    ensures NothingStuck(Fetch(s1, rel, page, append))
  {
    hide BusyOk, Tracked, SearchTracked, Works, Touches, Fetch, PageTracked, EndsOnly, Superseded;
    var s' := Fetch(s1, rel, page, append);
    var ended, begun := FetchWorks(s, s1, rel, page, append);
    SupersededEndsOnly(s, rel);
    FewerEndOnly(s.tasks, ended, Superseded(s, rel), OfPreview(rel));
    FetchTouches(s, s1, rel, page, append);
    FetchIsTracked(s1, rel, page, append);
    BegunIsNotStuck(s, s', ended, FetchPage(rel, page));
  }

  lemma PreviewIsNotStuck(s: State, rel: Relation)
    requires NothingStuck(s)
    ensures NothingStuck(PreviewTable(s, rel))
  {
    hide NothingStuck, Touches, Fetch;
    if rel.table != [] && SessionOf(s, rel.conn).Some? && (rel in s.previews ==> s.previews[rel].data.Failed?) {
      var page := FirstPage(s, if rel in s.previews then s.previews[rel].sort else None);
      var p := if rel in s.previews
               then s.previews[rel].(page := page, nextOffset := 0, data := Loading, loadedRows := 0,
                                     exhausted := false)
               else NewPreview(page);
      PreviewTouches(s, rel, p);
      FetchIsNotStuck(s, s.(previews := s.previews[rel := p]), rel, page, false);
    }
  }

  lemma SortIsNotStuck(s: State, rel: Relation, column: nat)
    requires NothingStuck(s)
    ensures NothingStuck(SortPreview(s, rel, column))
  {
    hide NothingStuck, Touches, Fetch, NextSort;
    if SessionOf(s, rel.conn).Some? && rel in s.previews {
      var sort := Some(NextSort(s.previews[rel], column));
      var p := s.previews[rel].(sort := sort, data := Loading, loadedRows := 0, nextOffset := 0, exhausted := false);
      PreviewTouches(s, rel, p);
      FetchIsNotStuck(s, s.(previews := s.previews[rel := p]), rel, FirstPage(s, sort), false);
    }
  }

  lemma LoadMoreIsNotStuck(s: State, rel: Relation)
    requires NothingStuck(s)
    ensures NothingStuck(LoadMore(s, rel))
  {
    hide NothingStuck, Touches;
    if rel in s.previews && SessionOf(s, rel.conn).Some? {
      ShownTouches(s, s, OfPreview(rel));
      FetchIsNotStuck(s, s, rel, s.previews[rel].page.(offset := s.previews[rel].nextOffset), true);
    }
  }

  lemma ForgetPreviewIsNotStuck(s: State, rel: Relation)
    requires NothingStuck(s)
    ensures NothingStuck(ForgetPreview(s, rel))
  {
    hide BusyOk, Tracked, SearchTracked, Works, Touches, PageTracked, EndsOnly, Superseded, DropAll;
    var s' := ForgetPreview(s, rel);
    var o := OfPreview(rel);
    var ended := ForgetPreviewWorks(s, rel);
    ForgetPreviewTouches(s, rel);
    SupersededEndsOnly(s, rel);
    FewerEndOnly(s.tasks, ended, Superseded(s, rel), o);
    EndedIsNotStuck(s, s', ended, o);
  }

  lemma DescribeIsNotStuck(s: State, rel: Relation, refresh: bool)
    requires NothingStuck(s)
    ensures NothingStuck(Describe(s, rel, refresh))
  {
    hide Tracked, BusyOk, PagesTracked, SearchTracked, Works, Touches, EndsOnly, OwnedBy, Describe;
    var ended, begun := DescribeWorks(s, rel, refresh);
    if begun.Some? {
      DescribeTouches(s, rel, refresh);
      OwnedEndsOnly(s, OfDefinition(rel));
      FewerEndOnly(s.tasks, ended, OwnedBy(s.busy, OfDefinition(rel)), OfDefinition(rel));
      BegunIsNotStuck(s, Describe(s, rel, refresh), ended, begun.value);
    }
  }

  lemma ForgettingIsNotStuck(s: State, rel: Relation, q: QueryId)
    requires NothingStuck(s)
    ensures NothingStuck(ForgetDefinition(s, rel))
    ensures NothingStuck(ForgetQuery(s, q))
  {
    hide Tracked, BusyOk, PagesTracked, SearchTracked, Works, Touches, EndsOnly, OwnedBy, DropAll;
    ForgettingWorks(s, rel, q);
    DescribeTouches(s, rel, true);
    OwnedEndsOnly(s, OfDefinition(rel));
    EndedIsNotStuck(s, ForgetDefinition(s, rel), OwnedBy(s.busy, OfDefinition(rel)), OfDefinition(rel));
    ForgetQueryTouches(s, q);
    OwnedEndsOnly(s, OfQuery(q));
    EndedIsNotStuck(s, ForgetQuery(s, q), OwnedBy(s.busy, OfQuery(q)), OfQuery(q));
  }

  lemma NoneEnd(tasks: map<BusyId, Task>, o: Owner)
    ensures EndsOnly(tasks, {}, o)
  {
  }

  lemma QueriesAreNotStuck(s: State, c: ConnId, q: QueryId, sql: string, issuer: Issuer)
    requires NothingStuck(s)
    ensures NothingStuck(RunQuery(s, c, q, sql, issuer))
    ensures NothingStuck(EstimateQuery(s, c, q, sql))
    ensures NothingStuck(ApproveQuery(s, q, issuer))
  {
    hide NothingStuck, Works, Touches, RunQuery, EstimateQuery, ApproveQuery, EndsOnly;
    NoneEnd(s.tasks, OfQuery(q));
    var run := RunWorks(s, c, q, sql, issuer);
    RunTouches(s, c, q, sql, issuer);
    if run.Some? {
      BegunIsNotStuck(s, RunQuery(s, c, q, sql, issuer), {}, run.value);
    }
    var estimate := EstimateWorks(s, c, q, sql);
    if estimate.Some? {
      BegunIsNotStuck(s, EstimateQuery(s, c, q, sql), {}, estimate.value);
    }
    var approve := ApproveWorks(s, q, issuer);
    ApproveTouches(s, q, issuer);
    if approve.Some? {
      BegunIsNotStuck(s, ApproveQuery(s, q, issuer), {}, approve.value);
    }
  }

  /** Every task of an owner has its row. */
  lemma OwnedByAll(s: State, owner: Owner)
    requires BusyOk(s)
    ensures forall b :: b in s.tasks && OwnerOf(s.tasks[b]) == owner ==> b in OwnedBy(s.busy, owner)
  {
    forall b | b in s.tasks && OwnerOf(s.tasks[b]) == owner
      ensures b in OwnedBy(s.busy, owner)
    {
      assert RowOf(s.busy, b) == TaskRow(s.tasks, b);
      RowIsThere(s.busy, b);
    }
  }

  lemma SearchIsTracked(s: State, terms: string)
    requires BusyOk(s) && SearchTracked(s)
    ensures SearchTracked(SearchHistory(s, terms))
  {
    hide Mirrors, Except, OwnedBy;
    OwnedByAll(s, OfHistory);
  }

  lemma SearchIsNotStuck(s: State, terms: string)
    requires NothingStuck(s)
    ensures NothingStuck(SearchHistory(s, terms))
  {
    hide Tracked, BusyOk, PagesTracked, SearchTracked, Works, Touches, EndsOnly, OwnedBy, SearchHistory, LoadingAt,
         Working;
    var s' := SearchHistory(s, terms);
    SearchIsTracked(s, terms);
    LibraryWorks(s, terms, false);
    LibraryTouches(s, terms, false);
    OwnedEndsOnly(s, OfHistory);
    if s.library {
      BegunIsWorking(s, s', OwnedBy(s.busy, OfHistory), Searching(terms));
      StepIsNotStuck(s, s', OwnedBy(s.busy, OfHistory), Some(Searching(terms)), OfHistory);
    } else {
      NothingKept(s, terms, false);
      NoneEnd(s.tasks, OfHistory);
      StepIsNotStuck(s, s', {}, None, OfHistory);
    }
  }

  lemma NothingKept(s: State, terms: string, writing: bool)
    requires !s.library
    ensures !LoadingAt(SearchHistory(s, terms), OfHistory)
    ensures !LoadingAt(WithLibrary(s, writing), OfTemplates)
  {
  }

  lemma LibraryIsNotStuck(s: State, writing: bool)
    requires NothingStuck(s)
    ensures NothingStuck(WithLibrary(s, writing))
  {
    hide NothingStuck, Works, Touches, EndsOnly, WithLibrary, LoadingAt;
    LibraryWorks(s, "", writing);
    LibraryTouches(s, "", writing);
    NoneEnd(s.tasks, OfTemplates);
    if s.library {
      BegunIsNotStuck(s, WithLibrary(s, writing), {}, Library);
    } else {
      NothingKept(s, "", writing);
      EndedIsNotStuck(s, WithLibrary(s, writing), {}, OfTemplates);
    }
  }

  // ── giving up ───────────────────────────────────────────────────────────

  /** Giving up takes what was waiting out of loading. */
  lemma AbandonStopsLoading(s: State, o: Owner, reason: string)
    ensures var s' := Abandon(s, o, reason);
            && !LoadingAt(s', o) && ConnLoadsOnly(s, s', o)
            && (o.OfPreview? && o.rel in s'.previews ==> s'.previews[o.rel].pending.None?)
            && (o.OfHistory? ==> s'.history.terms == s.history.terms)
  {
    hide RecordEnd, ConnLoadsOnly;
    if o.OfConnection? || o.OfNode? {
      AbandonConn(s, o, reason);
    } else {
      AbandonTouches(s, o, reason);
      TouchedElsewhere(s, Abandon(s, o, reason), o);
      if o.OfQuery? {
        AbandonQuery(s, o.query, reason);
      }
    }
  }

  lemma TouchedElsewhere(s: State, s': State, o: Owner)
    requires Touches(s, s', o) && !o.OfConnection? && !o.OfNode?
    ensures ConnLoadsOnly(s, s', o)
  {
  }

  lemma AbandonConn(s: State, o: Owner, reason: string)
    requires o.OfConnection? || o.OfNode?
    ensures !LoadingAt(Abandon(s, o, reason), o) && ConnLoadsOnly(s, Abandon(s, o, reason), o)
  {
    hide T.Flatten;
  }

  lemma AbandonQuery(s: State, q: QueryId, reason: string)
    ensures !LoadingAt(Abandon(s, OfQuery(q), reason), OfQuery(q))
  {
    hide RecordEnd;
    var failed := if q in s.queries then s.(queries := s.queries[q := s.queries[q].(data := Failed(reason))]) else s;
    RecordEndShows(failed, q, if reason == CANCELLED then RunCancelled else RunFailed(reason));
  }

  lemma DropLoadsTheSame(s: State, ids: set<BusyId>, o: Owner)
    ensures LoadingAt(DropAll(s, ids), o) == LoadingAt(s, o)
    ensures ConnLoadsOnly(s, DropAll(s, ids), o)
  {
    hide Except;
  }

  lemma CancelIsNotStuck(s: State, id: BusyId)
    requires NothingStuck(s)
    ensures NothingStuck(Cancel(s, id))
  {
    hide Tracked, Mirrors, PagesTracked, SearchTracked, Works, Touches, Abandon, DropAll, RowOf, LoadingAt, Working;
    var s' := Cancel(s, id);
    var row := RowOf(s.busy, id);
    CancelWorks(s, id);
    TaskOfRow(s, id);
    if row.Some? {
      var o := row.value.owner;
      var dropped := Drop(s, id);
      DropShows(s, {id});
      ShownTouches(s, dropped, o);
      AbandonTouches(dropped, o, CANCELLED);
      ThenTouches(s, dropped, s', o);
      AbandonStopsLoading(dropped, o, CANCELLED);
      ConnThenLoadsOnly(s, dropped, s', o);
      EndedIsNotStuck(s, s', {id}, o);
    } else {
      DropShows(s, {id});
      ShownTouches(s, s', OfTemplates);
      NothingDropped(s, s', {id});
      WorkedOnHere(s, OfTemplates);
      DropLoadsTheSame(s, {id}, OfTemplates);
      SearchStillTracked(s, s', {id}, None, OfTemplates);
      StepIsNotStuck(s, s', {id}, None, OfTemplates);
    }
  }

  lemma TaskOfRow(s: State, id: BusyId)
    requires BusyOk(s)
    ensures RowOf(s.busy, id) == if id in s.tasks then Some(BusyItem(id, OwnerOf(s.tasks[id]))) else None
  {
  }

  lemma NothingDropped(s: State, s': State, ids: set<BusyId>)
    requires Works(s, s', ids, None) && ids !! s.tasks.Keys
    ensures s'.tasks == s.tasks
  {
    hide Except;
    assert s.tasks - ids == s.tasks;
  }

  lemma ConnThenLoadsOnly(s: State, s': State, s'': State, o: Owner)
    requires SameShown(s, s') && ConnLoadsOnly(s', s'', o)
    ensures ConnLoadsOnly(s, s'', o)
  {
  }

  // ── disconnecting ───────────────────────────────────────────────────────

  /** The rows a disconnection ends are those of what belongs to the connection. */
  lemma OrphansOf(s: State, c: ConnId, owner: Owner)
    requires BusyOk(s)
    ensures var rows := Orphans(CloseConn(s, c), s.busy, c);
            && (forall b :: b in Ids(rows) && b in s.tasks && OwnerOf(s.tasks[b]) == owner ==> BelongsTo(s, owner, c))
            && (BelongsTo(s, owner, c) && Working(s.tasks, owner) ==> exists row :: row in rows && row.owner == owner)
  {
    hide Mirrors, KnownTasks, Orphans, CloseConn;
    var closed := CloseConn(s, c);
    CloseConnKeeps(s, c);
    var rows := Orphans(closed, s.busy, c);
    OrphansBelong(closed, s.busy, c);
    forall b | b in Ids(rows) && b in s.tasks && OwnerOf(s.tasks[b]) == owner
      ensures BelongsTo(s, owner, c)
    {
      var row :| row in rows && row.id == b;
      var i :| 0 <= i < |s.busy| && s.busy[i] == row;
      ItemAt(s.busy, i);
      TaskOfRow(s, b);
    }
    if BelongsTo(s, owner, c) && Working(s.tasks, owner) {
      var b :| b in s.tasks && OwnerOf(s.tasks[b]) == owner;
      TaskOfRow(s, b);
      RowIsThere(s.busy, b);
      assert BusyItem(b, owner) in rows;
    }
  }

  /** Nothing of a closed connection is loading. */
  lemma NothingOfItLoads(s: State, c: ConnId, owner: Owner)
    requires NothingStuck(s) && LoadingAt(Disconnect(s, c), owner)
    ensures LoadingAt(s, owner) && !BelongsTo(s, owner, c)
  {
    hide BusyOk, PagesTracked, SearchTracked, Disconnect, Orphans, CloseConn, Working;
    DisconnectShows(s, c);
    OrphansOf(s, c, owner);
  }

  lemma DisconnectWorksFor(s: State, c: ConnId, owner: Owner)
    requires BusyOk(s) && Working(s.tasks, owner) && !BelongsTo(s, owner, c)
    ensures Working(Disconnect(s, c).tasks, owner)
  {
    hide Mirrors, KnownTasks, Orphans, CloseConn, Disconnect, BelongsTo, Except, Ids;
    var ended := DisconnectWorks(s, c);
    OrphansOf(s, c, owner);
    var b :| b in s.tasks && OwnerOf(s.tasks[b]) == owner;
    assert b in Disconnect(s, c).tasks;
  }

  lemma DisconnectTracksPages(s: State, c: ConnId)
    requires BusyOk(s) && PagesTracked(s)
    ensures PagesTracked(Disconnect(s, c))
  {
    hide Mirrors, KnownTasks, Orphans, CloseConn, Disconnect, Except, Ids, BusyOk;
    var ended := DisconnectWorks(s, c);
    var s' := Disconnect(s, c);
    DisconnectShows(s, c);
    forall rel | rel in s'.previews
      ensures PageTracked(s'.previews[rel], rel, s'.tasks)
    {
      OrphansOf(s, c, OfPreview(rel));
      assert PageTracked(s.previews[rel], rel, s.tasks);
    }
  }

  lemma DisconnectTracksSearch(s: State, c: ConnId)
    requires SearchTracked(s)
    ensures SearchTracked(Disconnect(s, c))
  {
    hide Orphans, CloseConn, Disconnect, Except, Ids, SameBut, Named;
    var ended := DisconnectWorks(s, c);
    DisconnectShows(s, c);
  }

  lemma DisconnectIsNotStuck(s: State, c: ConnId)
    requires NothingStuck(s)
    ensures NothingStuck(Disconnect(s, c))
  {
    hide BusyOk, PagesTracked, SearchTracked, Disconnect, Works, LoadingAt, Working, BelongsTo;
    var s' := Disconnect(s, c);
    var ended := DisconnectWorks(s, c);
    WorkKeepsRows(s, s', ended, None);
    DisconnectTracksPages(s, c);
    DisconnectTracksSearch(s, c);
    forall owner: Owner | LoadingAt(s', owner)
      ensures Working(s'.tasks, owner)
    {
      NothingOfItLoads(s, c, owner);
      DisconnectWorksFor(s, c, owner);
    }
  }

  lemma ApplyIsNotStuck(s: State, a: Action, issuer: Issuer)
    requires NothingStuck(s)
    ensures NothingStuck(Apply(s, a, issuer))
  {
    hide NothingStuck, ConnectTo, Disconnect, OpenNode, PreviewTable, Describe, ForgetDefinition, SortPreview, LoadMore,
         ForgetPreview, RunQuery, EstimateQuery, ApproveQuery, ForgetQuery, SearchHistory, WithLibrary, Cancel;
    match a {
      case DoConnect(profile, c) => ConnectIsNotStuck(s, profile, c);
      case DoDisconnect(c) => DisconnectIsNotStuck(s, c);
      case DoToggleNode(c, node) => OpenNodeIsNotStuck(s, c, node, true);
      case DoExpandNode(c, node) => OpenNodeIsNotStuck(s, c, node, false);
      case DoPreview(rel) => PreviewIsNotStuck(s, rel);
      case DoDescribe(rel, refresh) => DescribeIsNotStuck(s, rel, refresh);
      case DoForgetDefinition(rel) => ForgettingIsNotStuck(s, rel, 0);
      case DoSort(rel, column) => SortIsNotStuck(s, rel, column);
      case DoLoadMore(rel) => LoadMoreIsNotStuck(s, rel);
      case DoForgetPreview(rel) => ForgetPreviewIsNotStuck(s, rel);
      case DoRun(c, q, sql) => QueriesAreNotStuck(s, c, q, sql, issuer);
      case DoEstimate(c, q, sql) => QueriesAreNotStuck(s, c, q, sql, issuer);
      case DoApprove(q) => QueriesAreNotStuck(s, 0, q, "", issuer);
      case DoForgetQuery(q) => ForgettingIsNotStuck(s, Relation(0, []), q);
      case DoLoadTemplates => LibraryIsNotStuck(s, false);
      case DoWriteTemplate => LibraryIsNotStuck(s, true);
      case DoSearch(terms) => SearchIsNotStuck(s, terms);
      case DoCancel(id) => CancelIsNotStuck(s, id);
      case DoQuit => IdleIsNotStuck(s, Apply(s, a, issuer));
    }
  }

  // ── events ──────────────────────────────────────────────────────────────

  /** The event answers a task of this run. */
  predicate Genuine(s: State, e: Event) {
    !e.Recorded? ==> e.busy in s.outside.spawned && Fits(e, s.outside.spawned[e.busy])
  }

  lemma EventEndsOnly(s: State, e: Event)
    requires BusyOk(s) && Genuine(s, e) && !e.Recorded?
    ensures EndsOnly(s.tasks, {e.busy}, OwnerOf(s.outside.spawned[e.busy]))
  {
    hide Mirrors, Distinct, Fits;
  }

  /** A reply that is handled by changing what its task was for. */
  lemma ReplyIsNotStuck(s: State, e: Event, o: Owner)
    requires NothingStuck(s) && Genuine(s, e) && !e.Recorded? && o == OwnerOf(s.outside.spawned[e.busy])
    requires Touches(Drop(s, e.busy), Handle(s, e), o) && ConnLoadsOnly(Drop(s, e.busy), Handle(s, e), o)
    requires !LoadingAt(Handle(s, e), o)
    requires o.OfHistory? ==> Handle(s, e).history.terms == s.history.terms
    requires o.OfPreview? && o.rel in Handle(s, e).previews ==> Handle(s, e).previews[o.rel].pending.None?
    ensures NothingStuck(Handle(s, e))
  {
    hide Tracked, BusyOk, PagesTracked, SearchTracked, Works, Touches, EndsOnly, DropAll, LoadingAt, Working, Handle,
         Genuine, ConnLoadsOnly;
    HandleWorks(s, e);
    EventEndsOnly(s, e);
    DropShows(s, {e.busy});
    ShownTouches(s, Drop(s, e.busy), o);
    ThenTouches(s, Drop(s, e.busy), Handle(s, e), o);
    ConnThenLoadsOnly(s, Drop(s, e.busy), Handle(s, e), o);
    EndedIsNotStuck(s, Handle(s, e), {e.busy}, o);
  }

  lemma RootsLoadNothing(roots: T.Children, node: T.NodeRef)
    ensures node in T.SetRoots(roots).status ==> T.SetRoots(roots).status[node] != T.Loading
  {
  }

  /** What arrives for a node is not loading, and nothing else starts to. */
  lemma FinishedLoadsOnly(t: T.Tree, node: T.NodeRef, result: Result<T.Children, string>, n: T.NodeRef)
    ensures var t' := T.FinishLoad(t, node, result);
            n in t'.status && t'.status[n] == T.Loading ==> n != node && n in t.status && t.status[n] == T.Loading
  {
  }

  /** A connection that is not opening, with no more loading in its tree than before. */
  lemma ConnLoadsNoMore(s: State, c: ConnId, conn: Conn)
    requires c in s.conns && conn.status != Connecting
    requires forall n :: n in conn.tree.status && conn.tree.status[n] == T.Loading ==>
               n in s.conns[c].tree.status && s.conns[c].tree.status[n] == T.Loading
    ensures var s' := s.(conns := s.conns[c := conn]);
            !LoadingAt(s', OfConnection(c)) && ConnLoadsOnly(s, s', OfConnection(c))
  {
  }

  lemma SpareSession(s: State, c: ConnId, outside: Outside)
    requires !(c in s.conns && s.conns[c].status == Connecting)
    ensures !LoadingAt(s.(outside := outside), OfConnection(c))
    ensures ConnLoadsOnly(s, s.(outside := outside), OfConnection(c))
  {
  }

  lemma ConnectedStopsLoading(s: State, c: ConnId, reply: Result<ConnectOutput, AppError>)
    ensures !LoadingAt(OnConnected(s, c, reply), OfConnection(c))
    ensures ConnLoadsOnly(s, OnConnected(s, c, reply), OfConnection(c))
  {
    hide LoadingAt, ConnLoadsOnly, T.Flatten, T.SetRoots, Message;
    match reply {
      case Success(out) =>
        forall node
          ensures node in T.SetRoots(out.roots).status ==> T.SetRoots(out.roots).status[node] != T.Loading
        {
          RootsLoadNothing(out.roots, node);
        }
        var tree := T.SetRoots(out.roots);
        if c in s.conns && s.conns[c].status == Connecting {
          ConnLoadsNoMore(s, c, s.conns[c].(status := Open, session := Some(out.session), access := out.access,
                                            tree := tree, view := T.Flatten(tree, c)));
        } else {
          SpareSession(s, c, s.outside.(closed := s.outside.closed + [out.session.id]));
        }
      case Failure(e) =>
        if c in s.conns {
          ConnLoadsNoMore(s, c, s.conns[c].(status := Broken(Message(e))));
        } else {
          SpareSession(s, c, s.outside);
          assert s.(outside := s.outside) == s;
        }
    }
  }

  lemma TreeLoadsOnly(s: State, c: ConnId, node: T.NodeRef, result: Result<T.Children, string>)
    requires c in s.conns
    ensures var s' := WithTree(s, c, T.FinishLoad(s.conns[c].tree, node, result));
            !LoadingAt(s', OfNode(c, node)) && ConnLoadsOnly(s, s', OfNode(c, node))
  {
    hide T.Flatten, T.FinishLoad;
    forall n
      ensures var t' := T.FinishLoad(s.conns[c].tree, node, result);
              n in t'.status && t'.status[n] == T.Loading ==>
                n != node && n in s.conns[c].tree.status && s.conns[c].tree.status[n] == T.Loading
    {
      FinishedLoadsOnly(s.conns[c].tree, node, result, n);
    }
  }

  lemma DyingLoadsOnly(s: State, c: ConnId, o: Owner)
    ensures LoadingAt(SessionDied(s, c), o) ==> LoadingAt(s, o)
  {
  }

  lemma ExpandedStopsLoading(s: State, c: ConnId, node: T.NodeRef, children: Result<T.Children, AppError>)
    ensures !LoadingAt(OnExpanded(s, c, node, children), OfNode(c, node))
    ensures ConnLoadsOnly(s, OnExpanded(s, c, node, children), OfNode(c, node))
  {
    hide LoadingAt, SessionDied, WithTree, T.FinishLoad;
    var outcome := match children case Success(v) => Success(v) case Failure(e) => Failure(Message(e));
    if c in s.conns {
      var finished := WithTree(s, c, T.FinishLoad(s.conns[c].tree, node, outcome));
      TreeLoadsOnly(s, c, node, outcome);
      forall o: Owner
        ensures LoadingAt(SessionDied(finished, c), o) ==> LoadingAt(finished, o)
      {
        DyingLoadsOnly(finished, c, o);
      }
    } else {
      NobodyDies(s, c);
      NobodyLoads(s, c, node);
    }
  }

  lemma NobodyDies(s: State, c: ConnId)
    requires c !in s.conns
    ensures SessionDied(s, c) == s
  {
  }

  lemma NobodyLoads(s: State, c: ConnId, node: T.NodeRef)
    requires c !in s.conns
    ensures !LoadingAt(s, OfNode(c, node))
  {
  }

  lemma AnsweredStopsLoading(s: State, e: Event)
    ensures e.Described? ==> !LoadingAt(OnDescribed(s, e.rel, e.detail), OfDefinition(e.rel))
    ensures e.Estimated? ==> !LoadingAt(OnEstimated(s, e.query, e.estimate), OfQuery(e.query))
    ensures e.LibraryAnswered? ==> !LoadingAt(s.(templates := Templates(Answered(e.list), e.wrote)), OfTemplates)
  {
  }

  lemma RanStopsLoading(s: State, q: QueryId, output: Result<RunOutput, AppError>)
    ensures !LoadingAt(OnRan(s, q, output), OfQuery(q))
  {
    hide OnRan;
    RanShows(s, q, output);
  }

  lemma ConnectedIsNotStuck(s: State, e: Event)
    requires NothingStuck(s) && Genuine(s, e) && e.Connected?
    ensures NothingStuck(Handle(s, e))
  {
    hide NothingStuck, DropAll, Touches, ConnLoadsOnly, LoadingAt, OnConnected;
    ConnectedTouches(Drop(s, e.busy), e.conn, e.reply);
    ConnectedStopsLoading(Drop(s, e.busy), e.conn, e.reply);
    ReplyIsNotStuck(s, e, OfConnection(e.conn));
  }

  lemma ExpandedIsNotStuck(s: State, e: Event)
    requires NothingStuck(s) && Genuine(s, e) && e.Expanded?
    ensures NothingStuck(Handle(s, e))
  {
    hide NothingStuck, DropAll, Touches, ConnLoadsOnly, LoadingAt, OnExpanded;
    ExpandedTouches(Drop(s, e.busy), e.conn, e.node, e.children);
    ExpandedStopsLoading(Drop(s, e.busy), e.conn, e.node, e.children);
    ReplyIsNotStuck(s, e, OfNode(e.conn, e.node));
  }

  lemma AnsweredIsNotStuck(s: State, e: Event)
    requires NothingStuck(s) && Genuine(s, e) && (e.Described? || e.Estimated? || e.LibraryAnswered? || e.Ran?)
    ensures NothingStuck(Handle(s, e))
  {
    hide NothingStuck, DropAll, Touches, ConnLoadsOnly, LoadingAt, OnDescribed, OnEstimated, OnRan, Answered;
    var dropped := Drop(s, e.busy);
    AnsweredStopsLoading(dropped, e);
    match e {
      case Described(rel, _, detail) => DescribedTouches(dropped, rel, detail);
      case Estimated(q, _, estimate) => EstimatedTouches(dropped, q, estimate);
      case Ran(q, _, output) =>
        RanTouches(dropped, q, output);
        RanStopsLoading(dropped, q, output);
      case LibraryAnswered(_, wrote, list) =>
        HistoryTouches(dropped, dropped.history, Templates(Answered(list), wrote));
    }
    var o := OwnerOf(s.outside.spawned[e.busy]);
    TouchedElsewhere(dropped, Handle(s, e), o);
    ReplyIsNotStuck(s, e, o);
  }

  /** An answer to words the box no longer holds belongs to a search that was ended. */
  lemma SearchedIsNotStuck(s: State, e: Event)
    requires NothingStuck(s) && Genuine(s, e) && e.Searched?
    ensures NothingStuck(Handle(s, e))
  {
    hide Tracked, PagesTracked, DropAll, Touches, ConnLoadsOnly, Answered, Mirrors, Distinct, Works, EndsOnly, Working;
    var dropped := Drop(s, e.busy);
    DropShows(s, {e.busy});
    if e.terms == s.history.terms {
      HistoryTouches(dropped, History(e.terms, Answered(e.entries)), dropped.templates);
      TouchedElsewhere(dropped, Handle(s, e), OfHistory);
      AnswerIsNotLoading(e.entries);
      ReplyIsNotStuck(s, e, OfHistory);
    } else {
      HandleWorks(s, e);
      EventEndsOnly(s, e);
      NothingDropped(s, dropped, {e.busy});
      ShownTouches(s, dropped, OfHistory);
      WorkedOnHere(s, OfHistory);
      TouchedElsewhere(s, dropped, OfHistory);
      SearchStillTracked(s, dropped, {e.busy}, None, OfHistory);
      StepIsNotStuck(s, dropped, {e.busy}, None, OfHistory);
    }
  }

  lemma AnswerIsNotLoading<V>(r: Result<V, AppError>)
    ensures !Answered(r).Loading?
  {
  }

  lemma SessionDiedIsNotStuck(s: State, c: ConnId)
    requires NothingStuck(s)
    ensures NothingStuck(SessionDied(s, c))
  {
    hide NothingStuck, Touches, ConnLoadsOnly, Works;
    SessionDiedTouches(s, c, T.ROOT);
    SessionDiedIsNoWork(s, c);
    SessionDiedLoadsOnly(s, c);
    QuietWorks(s, SessionDied(s, c));
    QuietIsNotStuck(s, SessionDied(s, c), OfConnection(c));
  }

  lemma SessionDiedLoadsOnly(s: State, c: ConnId)
    ensures ConnLoadsOnly(s, SessionDied(s, c), OfConnection(c))
    ensures LoadingAt(SessionDied(s, c), OfConnection(c)) ==> LoadingAt(s, OfConnection(c))
  {
  }

  /** A page nobody waits for ends a row that no preview is waiting on. */
  lemma StaleIsNotStuck(s: State, e: Event)
    requires NothingStuck(s) && Genuine(s, e) && e.Previewed?
    requires e.rel in s.previews && s.previews[e.rel].pending.Some? ==> s.previews[e.rel].pending.value.page != e.page
    ensures NothingStuck(Drop(s, e.busy))
  {
    hide Tracked, SearchTracked, Touches, ConnLoadsOnly, Mirrors, Distinct, Works, EndsOnly, Except;
    var s' := Drop(s, e.busy);
    var o := OfPreview(e.rel);
    EndWorks(s, s, {e.busy});
    EventEndsOnly(s, e);
    DropShows(s, {e.busy});
    ShownTouches(s, s', o);
    TouchedElsewhere(s, s', o);
    SearchStillTracked(s, s', {e.busy}, None, o);
    if e.rel in s.previews {
      assert PageTracked(s.previews[e.rel], e.rel, s.tasks);
      assert PageTracked(s'.previews[e.rel], e.rel, s'.tasks);
      if s'.previews[e.rel].data.Loading? {
        var b := s'.previews[e.rel].pending.value.busy;
        assert b in s'.tasks && OwnerOf(s'.tasks[b]) == o;
      }
    }
    StepIsNotStuck(s, s', {e.busy}, None, o);
  }

  lemma PreviewedIsNotStuck(s: State, e: Event)
    requires NothingStuck(s) && Genuine(s, e) && e.Previewed?
    ensures NothingStuck(Handle(s, e))
  {
    hide NothingStuck, DropAll, Touches, ConnLoadsOnly, Told, Works, EndsOnly, SessionDied;
    var dropped := Drop(s, e.busy);
    var told := Told(dropped, e.rel, e.page, e.rows);
    DropShows(s, {e.busy});
    ToldTouches(dropped, e.rel, e.page, e.rows);
    ToldIsNoWork(dropped, e.rel, e.page, e.rows);
    ToldShows(dropped, e.rel, e.page, e.rows);
    if Awaited(s, e.rel, e.page) {
      ToldIsNotStuck(s, e, told);
    } else {
      StaleIsNotStuck(s, e);
    }
    SessionDiedIsNotStuck(told, e.rel.conn);
  }

  lemma ToldIsNotStuck(s: State, e: Event, told: State)
    requires NothingStuck(s) && Genuine(s, e) && e.Previewed?
    requires Touches(Drop(s, e.busy), told, OfPreview(e.rel)) && SameWork(Drop(s, e.busy), told)
    requires e.rel in told.previews && told.previews[e.rel].pending.None? && !told.previews[e.rel].data.Loading?
    ensures NothingStuck(told)
  {
    hide Tracked, BusyOk, PagesTracked, SearchTracked, DropAll, Touches, ConnLoadsOnly, Works, EndsOnly;
    var dropped := Drop(s, e.busy);
    var o := OfPreview(e.rel);
    EndWorks(s, s, {e.busy});
    ThenQuiet(s, dropped, told, {e.busy}, None);
    EventEndsOnly(s, e);
    DropShows(s, {e.busy});
    ShownTouches(s, dropped, o);
    ThenTouches(s, dropped, told, o);
    TouchedElsewhere(s, told, o);
    EndedIsNotStuck(s, told, {e.busy}, o);
  }

  lemma HandleIsNotStuck(s: State, e: Event)
    requires NothingStuck(s) && Genuine(s, e)
    ensures NothingStuck(Handle(s, e))
  {
    hide NothingStuck, Genuine, OnConnected, OnExpanded, OnPreviewed, OnDescribed, OnRan, OnEstimated, OnSearched,
         OnRecorded, DropAll;
    match e {
      case Connected(_, _, _) => ConnectedIsNotStuck(s, e);
      case Expanded(_, _, _, _) => ExpandedIsNotStuck(s, e);
      case Previewed(_, _, _, _) => PreviewedIsNotStuck(s, e);
      case Described(_, _, _) => AnsweredIsNotStuck(s, e);
      case Ran(_, _, _) => AnsweredIsNotStuck(s, e);
      case Estimated(_, _, _) => AnsweredIsNotStuck(s, e);
      case Searched(_, _, _) => SearchedIsNotStuck(s, e);
      case LibraryAnswered(_, _, _) => AnsweredIsNotStuck(s, e);
      case Recorded(q, written) =>
        RecordedIsNoWork(s, q, written);
        RecordedShows(s, q, written);
        IdleIsNotStuck(s, Handle(s, e));
    }
  }

  // ── in every run ────────────────────────────────────────────────────────

  /** A reply from that task is on its way to the loop. */
  predicate InMail(mailbox: seq<Event>, b: BusyId) {
    exists i :: 0 <= i < |mailbox| && !mailbox[i].Recorded? && mailbox[i].busy == b
  }

  predicate MailGenuine(s: State, mailbox: seq<Event>) {
    forall i :: 0 <= i < |mailbox| ==> Genuine(s, mailbox[i])
  }

  /** A task still running has not replied, or its reply is in the mail. */
  predicate NoReplyLost(w: World) {
    && (forall b :: b in w.s.tasks && b in w.replied ==> InMail(w.mailbox, b))
    && (forall b :: b in w.replied ==> b in w.s.outside.spawned)
  }

  ghost predicate Sane(w: World) {
    NothingStuck(w.s) && MailGenuine(w.s, w.mailbox) && NoReplyLost(w)
  }

  /** What was spawned stays spawned. */
  lemma SpawnedStays(s: State, s': State, ended: set<BusyId>, begun: Option<Task>)
    requires BusyOk(s) && Works(s, s', ended, begun)
    ensures forall b :: b in s.outside.spawned ==>
              b in s'.outside.spawned && s'.outside.spawned[b] == s.outside.spawned[b]
    ensures forall b :: b in s'.tasks && b in s.outside.spawned ==> b in s.tasks && b !in ended
  {
    hide Mirrors, Distinct, Except;
  }

  lemma MailStays(s: State, s': State, mailbox: seq<Event>)
    requires MailGenuine(s, mailbox)
    requires forall b :: b in s.outside.spawned ==>
               b in s'.outside.spawned && s'.outside.spawned[b] == s.outside.spawned[b]
    ensures MailGenuine(s', mailbox)
  {
    hide Fits;
  }

  lemma ActedIsSane(w: World)
    requires Sane(w) && Enabled(w, Acted)
    ensures Sane(Next(w, Acted))
  {
    hide NothingStuck, Works, Apply, MailGenuine, InMail;
    var s := w.s.(applied := w.s.applied + 1);
    var w' := Next(w, Acted);
    CountingIsNotStuck(w.s);
    ApplyIsNotStuck(s, w.queue[0].0, w.queue[0].1);
    var ended, begun := ApplyWorks(s, w.queue[0].0, w.queue[0].1);
    RowsOf(s);
    SpawnedStays(s, w'.s, ended, begun);
    MailStays(w.s, w'.s, w.mailbox);
  }

  lemma RowsOf(s: State)
    requires NothingStuck(s)
    ensures BusyOk(s)
  {
    hide BusyOk, Tracked, PagesTracked, SearchTracked;
  }

  lemma MailAhead(s: State, mailbox: seq<Event>)
    requires MailGenuine(s, mailbox) && mailbox != []
    ensures Genuine(s, mailbox[0]) && MailGenuine(s, mailbox[1..])
    ensures forall b :: InMail(mailbox, b) ==> b in Ends(mailbox[0]) || InMail(mailbox[1..], b)
  {
    hide Genuine;
    forall b | InMail(mailbox, b)
      ensures b in Ends(mailbox[0]) || InMail(mailbox[1..], b)
    {
      var i :| 0 <= i < |mailbox| && !mailbox[i].Recorded? && mailbox[i].busy == b;
      if i > 0 {
        assert mailbox[1..][i - 1] == mailbox[i];
      }
    }
  }

  lemma ReceivedIsSane(w: World)
    requires Sane(w) && Enabled(w, Received)
    ensures Sane(Next(w, Received))
  {
    hide NothingStuck, Works, Handle, MailGenuine, InMail, Genuine;
    var w' := Next(w, Received);
    MailAhead(w.s, w.mailbox);
    HandleIsNotStuck(w.s, w.mailbox[0]);
    HandleWorks(w.s, w.mailbox[0]);
    RowsOf(w.s);
    SpawnedStays(w.s, w'.s, Ends(w.mailbox[0]), None);
    MailStays(w.s, w'.s, w'.mailbox);
  }

  lemma MailBehind(s: State, mailbox: seq<Event>, e: Event)
    requires MailGenuine(s, mailbox) && Genuine(s, e)
    ensures MailGenuine(s, mailbox + [e])
    ensures forall b :: InMail(mailbox, b) ==> InMail(mailbox + [e], b)
    ensures !e.Recorded? ==> InMail(mailbox + [e], e.busy)
  {
    hide Genuine;
    var more := mailbox + [e];
    assert more[|mailbox|] == e;
    forall b | InMail(mailbox, b)
      ensures InMail(more, b)
    {
      var i :| 0 <= i < |mailbox| && !mailbox[i].Recorded? && mailbox[i].busy == b;
      assert more[i] == mailbox[i];
    }
  }

  lemma StepIsSane(w: World, step: Step)
    requires Sane(w) && Enabled(w, step)
    ensures Sane(Next(w, step))
  {
    hide NothingStuck, Apply, Handle, MailGenuine, InMail;
    match step {
      case Dispatched(_, _) =>
      case Acted => ActedIsSane(w);
      case Completed(e) => MailBehind(w.s, w.mailbox, e);
      case Received => ReceivedIsSane(w);
      case RowAnswered(row, failed) => MailBehind(w.s, w.mailbox, RowReply(w, row, failed));
    }
  }

  lemma BegunIsSane(g: Wiring)
    ensures Sane(Begun(g))
  {
  }

  lemma {:induction false} RunIsSane(w: World, steps: seq<Step>)
    requires Sane(w) && Legal(w, steps)
    ensures Sane(After(w, steps))
    decreases |steps|
  {
    hide Sane, Enabled, Next;
    if steps != [] {
      StepIsSane(w, steps[0]);
      RunIsSane(Next(w, steps[0]), steps[1..]);
    }
  }

  /** A row for `owner` whose task is running, which will be heard from, and which can be cancelled. */
  predicate Alive(w: World, i: nat, owner: Owner)
    requires i < |w.s.busy|
  {
    var row := w.s.busy[i];
    && row.owner == owner
    && row.id in w.s.tasks && OwnerOf(w.s.tasks[row.id]) == owner
    && (row.id in w.replied ==> InMail(w.mailbox, row.id))
    && !LoadingAt(Cancel(w.s, row.id), owner)
  }

  lemma CancelStopsLoading(s: State, i: nat)
    requires BusyOk(s) && i < |s.busy|
    ensures !LoadingAt(Cancel(s, s.busy[i].id), s.busy[i].owner)
  {
    hide Abandon, DropAll, LoadingAt, Mirrors;
    ItemAt(s.busy, i);
    AbandonStopsLoading(Drop(s, s.busy[i].id), s.busy[i].owner, CANCELLED);
  }

  lemma LiveIsAlive(w: World, owner: Owner) returns (i: nat)
    requires Sane(w) && LoadingAt(w.s, owner)
    ensures i < |w.s.busy| && Alive(w, i, owner)
  {
    hide PagesTracked, SearchTracked, MailGenuine, InMail, LoadingAt, Cancel, Mirrors;
    var s := w.s;
    var b :| b in s.tasks && OwnerOf(s.tasks[b]) == owner;
    TaskOfRow(s, b);
    RowIsThere(s.busy, b);
    i :| 0 <= i < |s.busy| && s.busy[i] == BusyItem(b, owner);
    CancelStopsLoading(s, i);
  }

  /**
   In every state of every run, whatever is shown as loading has a row that is
   alive. So what has no row is not loading, whatever its row is asked for.
   */
  lemma NothingIsStuck(g: Wiring, steps: seq<Step>, owner: Owner)
    requires Legal(Begun(g), steps)
    ensures var w := After(Begun(g), steps);
            && (LoadingAt(w.s, owner) ==> exists i: nat :: i < |w.s.busy| && Alive(w, i, owner))
            && (Settled(w.s, owner) ==> !LoadingAt(w.s, owner))
  {
    hide Sane, Alive, LoadingAt, Begun, Legal, After;
    var w := After(Begun(g), steps);
    BegunIsSane(g);
    RunIsSane(Begun(g), steps);
    if LoadingAt(w.s, owner) {
      var i := LiveIsAlive(w, owner);
      AliveIsOwned(w, i, owner);
    }
  }

  lemma AliveIsOwned(w: World, i: nat, owner: Owner)
    requires i < |w.s.busy| && Alive(w, i, owner)
    ensures !Settled(w.s, owner)
  {
    hide Cancel;
  }

  /** In every state of every run, rows have ids of their own, and those are the ids of the tasks. */
  lemma RowsAreTheTasks(g: Wiring, steps: seq<Step>)
    requires Legal(Begun(g), steps)
    ensures var s := After(Begun(g), steps).s;
            && Distinct(s.busy)
            && Ids(s.busy) == s.tasks.Keys
            && forall i :: 0 <= i < |s.busy| ==>
                 s.busy[i].id in s.tasks && s.busy[i].owner == OwnerOf(s.tasks[s.busy[i].id])
  {
    hide Begun, Legal, After, Mirrors;
    BegunIsSane(g);
    RunIsSane(Begun(g), steps);
    MirrorsBothWays(After(Begun(g), steps).s);
  }

  lemma MirrorsBothWays(s: State)
    requires BusyOk(s)
    ensures Ids(s.busy) == s.tasks.Keys
    ensures forall i :: 0 <= i < |s.busy| ==>
              s.busy[i].id in s.tasks && s.busy[i].owner == OwnerOf(s.tasks[s.busy[i].id])
  {
    forall i | 0 <= i < |s.busy|
      ensures s.busy[i].id in s.tasks && s.busy[i].owner == OwnerOf(s.tasks[s.busy[i].id])
    {
      ItemAt(s.busy, i);
    }
    forall b | b in s.tasks
      ensures b in Ids(s.busy)
    {
      TaskOfRow(s, b);
      RowIsThere(s.busy, b);
    }
  }
}
