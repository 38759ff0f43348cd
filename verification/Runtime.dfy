/**
 The object that holds the application state and changes it in place: `Runtime`
 of crates/sqlake-app/src/store.rs. Every method is proved to do to the fields
 what the functions of `Store` do to the state as a value.
 */
module Runtime {
  import opened Wrappers
  import opened Pages
  import opened Store
  import opened Runs
  import opened Rows
  import opened Frames

  /** Nothing but ids goes, one after the other, or all together. */
  lemma DropAgain(s: State, ids: set<BusyId>, id: BusyId)
    ensures Drop(DropAll(s, ids), id) == DropAll(s, ids + {id})
  {
    ExceptTwice(s.busy, ids, {id});
    assert s.tasks - ids - {id} == s.tasks - (ids + {id});
  }

  lemma DropNone(s: State)
    ensures DropAll(s, {}) == s
  {
    ExceptNone(s.busy);
    assert s.tasks - {} == s.tasks;
    assert s.(busy := s.busy, tasks := s.tasks) == s;
  }

  lemma ExceptStep(busy: seq<BusyItem>, ids: set<BusyId>, i: nat)
    requires i < |busy|
    ensures Except(busy[..i + 1], ids) ==
            Except(busy[..i], ids) + if busy[i].id in ids then [] else [busy[i]]
  {
    assert busy[..i + 1] == busy[..i] + [busy[i]];
    ExceptMore(busy[..i], busy[i], ids);
  }

  lemma {:induction false} ExceptMore(busy: seq<BusyItem>, more: BusyItem, ids: set<BusyId>)
    ensures Except(busy + [more], ids) == Except(busy, ids) + if more.id in ids then [] else [more]
  {
    if busy == [] {
      assert [] + [more] == [more];
      assert [more][1..] == [];
    } else {
      assert (busy + [more])[1..] == busy[1..] + [more];
      ExceptMore(busy[1..], more, ids);
    }
  }

  class Runtime {
    const pageSize: nat
    const library: bool
    const profiles: map<string, bool>
    var conns: map<ConnId, Conn>
    var previews: map<Relation, Preview>
    var definitions: map<Relation, LoadState<string>>
    var queries: map<QueryId, Query>
    var templates: Templates
    var history: History
    var runs: map<QueryId, Recording>
    var busy: seq<BusyItem>
    var tasks: map<BusyId, Task>
    var nextId: BusyId
    var shouldQuit: bool
    var applied: nat
    /** What has been done to the world outside: see `Store.Outside`. */
    var outside: Outside

    function View(): State
      reads this
    {
      State(pageSize, library, profiles, conns, previews, definitions, queries, templates, history, runs, busy, tasks,
            nextId,
            shouldQuit, applied, outside)
    }

    constructor (pageSize: nat, library: bool, profiles: map<string, bool>)
      ensures View() == Start(pageSize, library, profiles)
    {
      this.pageSize := if pageSize == 0 then 1 else pageSize;
      this.library := library;
      this.profiles := profiles;
      conns, previews, definitions, queries := map[], map[], map[], map[];
      templates, history, runs := Templates(Idle, None), History("", Idle), map[];
      busy, tasks, nextId, shouldQuit, applied := [], map[], 1, false, 0;
      outside := Outside(map[], [], [], [], []);
    }

    // ── ids, rows and tasks ─────────────────────────────────────────────

    method AllocId() returns (id: BusyId)
      modifies this`nextId
      ensures id == old(nextId) && nextId == old(nextId) + 1
    {
      id := nextId;
      nextId := nextId + 1;
    }

    method BeginBusy(owner: Owner) returns (id: BusyId)
      modifies this`nextId, this`busy
      ensures id == old(nextId) && nextId == old(nextId) + 1 && busy == old(busy) + [BusyItem(id, owner)]
    {
      id := AllocId();
      busy := busy + [BusyItem(id, owner)];
    }

    method SpawnTask(id: BusyId, task: Task)
      modifies this`tasks, this`outside
      ensures tasks == old(tasks)[id := task]
      ensures outside == old(outside).(spawned := old(outside).spawned[id := task])
    {
      tasks := tasks[id := task];
      outside := outside.(spawned := outside.spawned[id := task]);
    }

    /** A row and the task behind it, begun together. */
    method BeginTask(task: Task) returns (id: BusyId)
      modifies this
      ensures id == old(nextId) && View() == Begin(old(View()), task)
    {
      id := BeginBusy(OwnerOf(task));
      SpawnTask(id, task);
    }

    /** The rows but one, in their order. */
    method Retain(id: BusyId)
      modifies this`busy
      ensures busy == Except(old(busy), {id})
    {
      var kept: seq<BusyItem> := [];
      var i := 0;
      while i < |busy|
        invariant i <= |busy| && busy == old(busy)
        invariant kept == Except(busy[..i], {id})
      {
        ExceptStep(busy, {id}, i);
        if busy[i].id != id {
          kept := kept + [busy[i]];
        }
        i := i + 1;
      }
      assert busy[..i] == busy;
      busy := kept;
    }

    method DropTask(id: BusyId)
      modifies this`busy, this`tasks
      ensures View() == Drop(old(View()), id)
    {
      tasks := tasks - {id};
      Retain(id);
    }

    /** Every row of the owner ends, and so does its task. */
    method DropOwned(owner: Owner)
      modifies this`busy, this`tasks
      ensures View() == DropAll(old(View()), OwnedBy(old(busy), owner))
    {
      hide DropAll, OwnedBy;
      ghost var before := View();
      var rows := busy;
      var i := 0;
      DropNone(before);
      OwnedByNone(rows, owner);
      while i < |rows|
        invariant i <= |rows|
        invariant View() == DropAll(before, OwnedBy(rows[..i], owner))
      {
        OwnedByStep(rows, owner, i);
        if rows[i].owner == owner {
          DropTask(rows[i].id);
          DropAgain(before, OwnedBy(rows[..i], owner), rows[i].id);
        }
        i := i + 1;
      }
      assert rows[..i] == rows;
    }

    method SessionOf(c: ConnId) returns (session: Option<Session>)
      ensures session == Store.SessionOf(View(), c)
    {
      session := if c in conns then conns[c].session else None;
    }

    // ── connections ─────────────────────────────────────────────────────

    method ConnectTo(profile: string, c: ConnId)
      modifies this
      ensures View() == Store.ConnectTo(old(View()), profile, c)
    {
      if c in conns || profile !in profiles {
        return;
      }
      if !profiles[profile] {
        conns := conns[c := NewConn(Broken(NO_DRIVER))];
        return;
      }
      conns := conns[c := NewConn(Connecting)];
      var id := BeginTask(Connect(c));
    }

    method Disconnect(c: ConnId)
      modifies this
      ensures View() == Store.Disconnect(old(View()), c)
    {
      hide DropOrphans, Orphans;
      if c in conns {
        var conn := conns[c];
        if conn.session.Some? {
          outside := outside.(closed := outside.closed + [conn.session.value.id]);
        }
        conns := conns[c := conn.(session := None, status := Closed, tree := T.EMPTY, view := [])];
      }
      ghost var closed := View();
      assert closed == CloseConn(old(View()), c);
      var orphaned := FindOrphans(c);
      DropFound(orphaned);
      previews := map rel | rel in previews && rel.conn != c :: previews[rel];
      definitions := map rel | rel in definitions && rel.conn != c :: definitions[rel];
    }

    method FindOrphans(c: ConnId) returns (orphaned: seq<BusyItem>)
      ensures orphaned == Orphans(View(), busy, c)
    {
      hide BelongsTo, Orphans;
      var rows := busy;
      ghost var s := View();
      orphaned := [];
      var i := 0;
      assert rows[0..] == rows;
      while i < |rows|
        invariant i <= |rows|
        invariant orphaned + Orphans(s, rows[i..], c) == Orphans(s, rows, c)
      {
        var mine := BelongsTo(View(), rows[i].owner, c);
        OrphansStep(s, rows, i, c);
        if mine {
          Regroup(orphaned, [rows[i]], Orphans(s, rows[i + 1..], c));
          orphaned := orphaned + [rows[i]];
        }
        i := i + 1;
      }
      assert rows[i..] == [];
      OrphansNone(s, c);
    }

    /** The orphans' tasks end, and a query is told that no reply is coming. */
    method DropFound(orphaned: seq<BusyItem>)
      modifies this
      ensures View() == DropOrphans(old(View()), orphaned)
    {
      hide Store.Abandon, DropAll, DropOrphans;
      ghost var before := View();
      var i := 0;
      assert orphaned[0..] == orphaned;
      while i < |orphaned|
        invariant i <= |orphaned|
        invariant DropOrphans(View(), orphaned[i..]) == DropOrphans(before, orphaned)
      {
        DropOrphansStep(View(), orphaned, i);
        DropTask(orphaned[i].id);
        if orphaned[i].owner.OfQuery? {
          Abandon(orphaned[i].owner, DISCONNECTED);
        }
        i := i + 1;
      }
      assert orphaned[i..] == [];
      DropOrphansNone(View());
    }

    method OpenNode(c: ConnId, node: T.NodeRef, toggle: bool)
      modifies this
      ensures View() == Store.OpenNode(old(View()), c, node, toggle)
    {
      hide T.Contains, T.Toggle, T.Expand, T.Flatten;
      if node.path == [] {
        if c in conns {
          conns := conns[c := conns[c].(expanded := if toggle then !conns[c].expanded else true)];
        }
        return;
      }
      var session := SessionOf(c);
      if session.None? || !T.Contains(conns[c].tree, node) {
        return;
      }
      var (tree, answer) := if toggle then T.Toggle(conns[c].tree, node) else T.Expand(conns[c].tree, node);
      conns := conns[c := conns[c].(tree := tree, view := T.Flatten(tree, c))];
      if answer == T.Local {
        return;
      }
      var id := BeginTask(ExpandNode(c, node));
    }

    // ── previews ────────────────────────────────────────────────────────

    method FetchPage(rel: Relation, page: PageRequest, append: bool)
      modifies this
      ensures View() == Fetch(old(View()), rel, page, append)
    {
      hide DropAll;
      var session := SessionOf(rel.conn);
      if session.None? {
        return;
      }
      if rel in previews && previews[rel].pending.Some? {
        DropTask(previews[rel].pending.value.busy);
      }
      var id := BeginTask(Task.FetchPage(rel, page));
      if rel in previews {
        previews := previews[rel := previews[rel].(pending := Some(PendingPage(id, page, append)))];
      }
    }

    method PreviewTable(rel: Relation)
      modifies this
      ensures View() == Store.PreviewTable(old(View()), rel)
    {
      hide Fetch;
      if rel.table == [] {
        return;
      }
      var session := SessionOf(rel.conn);
      if session.None? {
        return;
      }
      if rel in previews {
        var existing := previews[rel];
        if existing.data.Failed? {
          var page := PageRequest(0, pageSize, existing.sort);
          previews := previews[rel :=
                        existing.(page := page, nextOffset := 0, data := Loading, loadedRows := 0, exhausted := false)];
          FetchPage(rel, page, false);
        }
        return;
      }
      var page := PageRequest(0, pageSize, None);
      previews := previews[rel := NewPreview(page)];
      FetchPage(rel, page, false);
    }

    method SortPreview(rel: Relation, column: nat)
      modifies this
      ensures View() == Store.SortPreview(old(View()), rel, column)
    {
      hide Fetch;
      var session := SessionOf(rel.conn);
      if session.None? || !session.value.sortable || rel !in previews {
        return;
      }
      var p := previews[rel];
      if column >= (if p.columns.Some? then p.columns.value else 1) {
        return;
      }
      var dir := if p.sort.Some? && p.sort.value.column == column then Toggled(p.sort.value.dir) else Asc;
      var sort := Some(Sort(column, dir));
      previews := previews[rel := p.(sort := sort, data := Loading, loadedRows := 0, nextOffset := 0,
                                     exhausted := false)];
      FetchPage(rel, PageRequest(0, pageSize, sort), false);
    }

    method LoadMore(rel: Relation)
      modifies this
      ensures View() == Store.LoadMore(old(View()), rel)
    {
      hide Fetch;
      if rel !in previews {
        return;
      }
      var p := previews[rel];
      if p.pending.Some? || !p.data.Ready? || p.exhausted {
        return;
      }
      FetchPage(rel, p.page.(offset := p.nextOffset), true);
    }

    method ForgetPreview(rel: Relation)
      modifies this
      ensures View() == Store.ForgetPreview(old(View()), rel)
    {
      hide DropAll;
      if rel !in previews {
        return;
      }
      if previews[rel].pending.Some? {
        DropTask(previews[rel].pending.value.busy);
      }
      previews := previews - {rel};
    }

    // ── definitions ─────────────────────────────────────────────────────

    method DescribeTable(rel: Relation, refresh: bool)
      modifies this
      ensures View() == Describe(old(View()), rel, refresh)
    {
      hide DropAll, OwnedBy;
      var session := SessionOf(rel.conn);
      if session.None? || rel.table == [] {
        return;
      }
      if rel in definitions && !refresh && !definitions[rel].Failed? {
        return;
      }
      definitions := definitions[rel := Loading];
      DropOwned(OfDefinition(rel));
      var id := BeginTask(Task.DescribeTable(rel));
    }

    method ForgetDefinition(rel: Relation)
      modifies this
      ensures View() == Store.ForgetDefinition(old(View()), rel)
    {
      hide DropAll, OwnedBy;
      DropOwned(OfDefinition(rel));
      definitions := definitions - {rel};
    }

    // ── queries ─────────────────────────────────────────────────────────

    method RecordStart(q: QueryId, c: ConnId, sql: string, issuer: Issuer)
      modifies this`runs, this`outside
      ensures View() == Store.RecordStart(old(View()), q, c, sql, issuer)
    {
      if !library || c !in conns {
        return;
      }
      runs := runs[q := Starting(None)];
      outside := outside.(started := outside.started + [RunStart(q, c, sql, issuer)]);
    }

    method WriteOutcome(row: RowId, outcome: RunOutcome)
      modifies this`outside
      ensures View() == Store.Settle(old(View()), row, outcome)
    {
      if library {
        outside := outside.(settled := outside.settled + [(row, outcome)]);
      }
    }

    method RecordEnd(q: QueryId, outcome: RunOutcome)
      modifies this`runs, this`outside
      ensures View() == Store.RecordEnd(old(View()), q, outcome)
    {
      hide Settle;
      if q !in runs {
        return;
      }
      var held := runs[q];
      match held {
        case Written(row) =>
          runs := runs - {q};
          WriteOutcome(row, outcome);
        case Starting(_) => runs := runs[q := Starting(Some(outcome))];
      }
    }

    method RunQuery(c: ConnId, q: QueryId, sql: string, issuer: Issuer)
      modifies this
      ensures View() == Store.RunQuery(old(View()), c, q, sql, issuer)
    {
      hide Store.RecordStart, Begin;
      var session := SessionOf(c);
      if session.None? || q in queries {
        return;
      }
      queries := queries[q := Query(c, sql, None, Loading)];
      RecordStart(q, c, sql, issuer);
      var id := BeginTask(Task.Run(q));
    }

    method EstimateQuery(c: ConnId, q: QueryId, sql: string)
      modifies this
      ensures View() == Store.EstimateQuery(old(View()), c, q, sql)
    {
      hide Begin;
      var session := SessionOf(c);
      if session.None? || q in queries {
        return;
      }
      queries := queries[q := Query(c, sql, None, Loading)];
      var id := BeginTask(Estimating(q));
    }

    method ApproveQuery(q: QueryId, issuer: Issuer)
      modifies this
      ensures View() == Store.ApproveQuery(old(View()), q, issuer)
    {
      hide Store.RecordStart, Begin;
      if q !in queries {
        return;
      }
      var query := queries[q];
      var session := SessionOf(query.conn);
      if session.None? || query.needsApproval.None? {
        return;
      }
      queries := queries[q := query.(needsApproval := None, data := Loading)];
      RecordStart(q, query.conn, query.sql, issuer);
      var id := BeginTask(RunOver(q, query.needsApproval.value));
    }

    method ForgetQuery(q: QueryId)
      modifies this
      ensures View() == Store.ForgetQuery(old(View()), q)
    {
      hide DropAll, OwnedBy;
      DropOwned(OfQuery(q));
      queries := queries - {q};
    }

    // ── the library ─────────────────────────────────────────────────────

    method SearchHistory(terms: string)
      modifies this
      ensures View() == Store.SearchHistory(old(View()), terms)
    {
      hide DropAll, OwnedBy;
      if !library {
        history := History(terms, Failed(NOTHING_KEPT));
        return;
      }
      ghost var before := View();
      ghost var owned := OwnedBy(busy, OfHistory);
      DropOwned(OfHistory);
      if !history.data.Ready? {
        history := history.(data := Loading);
      }
      history := history.(terms := terms);
      DropBesideHistory(before, owned, history);
      var id := BeginTask(Searching(terms));
    }

    method WithLibrary(writing: bool)
      modifies this
      ensures View() == Store.WithLibrary(old(View()), writing)
    {
      hide Begin;
      if !library {
        templates := templates.(data := Failed(NOTHING_KEPT));
        if writing {
          templates := templates.(failed := Some(NOTHING_KEPT));
        }
        return;
      }
      templates := templates.(failed := None);
      if !templates.data.Ready? {
        templates := templates.(data := Loading);
      }
      var id := BeginTask(Library);
    }

    // ── giving up ───────────────────────────────────────────────────────

    method Abandon(owner: Owner, reason: string)
      modifies this
      ensures View() == Store.Abandon(old(View()), owner, reason)
      ensures busy == old(busy) && tasks == old(tasks)
    {
      hide T.Flatten, T.FinishLoad, Store.RecordEnd;
      match owner {
        case OfConnection(c) =>
          if c in conns && conns[c].status == Connecting {
            conns := conns[c := conns[c].(status := Broken(reason))];
          }
        case OfNode(c, node) =>
          if c in conns {
            var tree := T.FinishLoad(conns[c].tree, node, Failure(reason));
            conns := conns[c := conns[c].(tree := tree, view := T.Flatten(tree, c))];
          }
        case OfHistory =>
          if history.data.Loading? {
            history := history.(data := Failed(reason));
          }
        case OfTemplates =>
          templates := templates.(failed := Some(reason));
          if templates.data.Loading? {
            templates := templates.(data := Failed(reason));
          }
        case OfQuery(q) =>
          if q in queries {
            queries := queries[q := queries[q].(data := Failed(reason))];
          }
          RecordEnd(q, if reason == CANCELLED then RunCancelled else RunFailed(reason));
        case OfDefinition(rel) =>
          if rel in definitions {
            definitions := definitions[rel := Failed(reason)];
          }
        case OfPreview(rel) =>
          if rel in previews {
            var p := previews[rel].(pending := None, attempts := previews[rel].attempts + 1);
            previews := previews[rel := if p.data.Ready? then p else p.(data := Failed(reason))];
          }
      }
    }

    method FindRow(id: BusyId) returns (row: Option<BusyItem>)
      ensures row == RowOf(busy, id)
    {
      var i := 0;
      assert busy[0..] == busy;
      while i < |busy|
        invariant i <= |busy|
        invariant RowOf(busy, id) == RowOf(busy[i..], id)
      {
        if busy[i].id == id {
          return Some(busy[i]);
        }
        assert busy[i..][1..] == busy[i + 1..];
        i := i + 1;
      }
      return None;
    }

    method Cancel(id: BusyId)
      modifies this
      ensures View() == Store.Cancel(old(View()), id)
    {
      hide DropAll, Store.Abandon, RowOf;
      var row := FindRow(id);
      DropTask(id);
      if row.Some? {
        Abandon(row.value.owner, CANCELLED);
      }
    }

    method Apply(action: Action, issuer: Issuer)
      modifies this
      ensures View() == Store.Apply(old(View()), action, issuer)
    {
      hide *;
      ghost var before := View();
      Applied(before, action, issuer);
      match action {
        case DoConnect(profile, c) => ConnectTo(profile, c);
        case DoDisconnect(c) => Disconnect(c);
        case DoToggleNode(c, node) => OpenNode(c, node, true);
        case DoExpandNode(c, node) => OpenNode(c, node, false);
        case DoPreview(rel) => PreviewTable(rel);
        case DoDescribe(rel, refresh) => DescribeTable(rel, refresh);
        case DoForgetDefinition(rel) => ForgetDefinition(rel);
        case DoSort(rel, column) => SortPreview(rel, column);
        case DoLoadMore(rel) => LoadMore(rel);
        case DoForgetPreview(rel) => ForgetPreview(rel);
        case DoRun(c, q, sql) => RunQuery(c, q, sql, issuer);
        case DoEstimate(c, q, sql) => EstimateQuery(c, q, sql);
        case DoApprove(q) => ApproveQuery(q, issuer);
        case DoForgetQuery(q) => ForgetQuery(q);
        case DoLoadTemplates => WithLibrary(false);
        case DoWriteTemplate => WithLibrary(true);
        case DoSearch(terms) => SearchHistory(terms);
        case DoCancel(id) => Cancel(id);
        case DoQuit => Quit();
      }
    }

    method Quit()
      modifies this`shouldQuit
      ensures View() == old(View()).(shouldQuit := true)
    {
      shouldQuit := true;
    }

    // ── events ──────────────────────────────────────────────────────────

    method OnConnected(c: ConnId, reply: Result<ConnectOutput, AppError>)
      modifies this
      ensures View() == Store.OnConnected(old(View()), c, reply)
    {
      hide T.Flatten, T.SetRoots, Message;
      match reply {
        case Success(out) =>
          if c in conns && conns[c].status == Connecting {
            var tree := T.SetRoots(out.roots);
            conns := conns[c := conns[c].(status := Open, session := Some(out.session), access := out.access,
                                          tree := tree, view := T.Flatten(tree, c))];
          } else {
            outside := outside.(closed := outside.closed + [out.session.id]);
          }
        case Failure(e) =>
          if c in conns {
            conns := conns[c := conns[c].(status := Broken(Message(e)))];
          }
      }
    }

    method SessionDied(c: ConnId)
      modifies this
      ensures View() == Store.SessionDied(old(View()), c)
    {
      if c !in conns || conns[c].status == Closed {
        return;
      }
      if conns[c].session.Some? {
        outside := outside.(lost := outside.lost + [conns[c].session.value.id]);
      }
      conns := conns[c := conns[c].(session := None, status := Broken(SESSION_CLOSED))];
    }

    method OnExpanded(c: ConnId, node: T.NodeRef, children: Result<T.Children, AppError>)
      modifies this
      ensures View() == Store.OnExpanded(old(View()), c, node, children)
    {
      hide T.Flatten, T.FinishLoad, Store.SessionDied, Message;
      var outcome := match children case Success(v) => Success(v) case Failure(e) => Failure(Message(e));
      if c in conns {
        var tree := T.FinishLoad(conns[c].tree, node, outcome);
        conns := conns[c := conns[c].(tree := tree, view := T.Flatten(tree, c))];
      }
      if children == Failure(SessionClosed) {
        SessionDied(c);
      }
    }

    /** Whether a reply adds rows or replaces them is the preview's own record of what it asked for. */
    method OnPreviewed(rel: Relation, page: PageRequest, rows: Result<ResultSet<Row>, AppError>)
      modifies this
      ensures View() == Store.OnPreviewed(old(View()), rel, page, rows)
    {
      hide Store.SessionDied, Message, Landed, NotLanded;
      if rel !in previews || previews[rel].pending.None? || previews[rel].pending.value.page != page {
        return;
      }
      var append := previews[rel].pending.value.append;
      match rows {
        case Success(result) =>
          var landed := Land(previews[rel], append, page, result);
          previews := previews[rel := landed];
        case Failure(e) =>
          var failed := Miss(previews[rel], append, Message(e));
          previews := previews[rel := failed];
          if e == SessionClosed {
            SessionDied(rel.conn);
          }
      }
    }

    method OnDescribed(rel: Relation, detail: Result<string, AppError>)
      modifies this
      ensures View() == Store.OnDescribed(old(View()), rel, detail)
    {
      if rel in definitions {
        definitions := definitions[rel := Answered(detail)];
      }
    }

    method OnRan(q: QueryId, output: Result<RunOutput, AppError>)
      modifies this
      ensures View() == Store.OnRan(old(View()), q, output)
    {
      hide Store.RecordEnd, Message;
      if q !in queries {
        return;
      }
      var query := queries[q];
      var outcome;
      match output {
        case Success(RanRows(result)) =>
          query := query.(data := Ready(New(result)));
          outcome := RunOk(|result.rows|);
        case Success(AskFirst(over)) =>
          query := query.(needsApproval := Some(over), data := Idle);
          outcome := RunRefused(OVER_THE_BUDGET);
        case Failure(e) =>
          query := query.(data := Failed(Message(e)));
          outcome := RunFailed(Message(e));
      }
      queries := queries[q := query];
      RecordEnd(q, outcome);
    }

    method OnEstimated(q: QueryId, estimate: Result<A.Estimate, AppError>)
      modifies this
      ensures View() == Store.OnEstimated(old(View()), q, estimate)
    {
      if q in queries {
        queries := queries[q := queries[q].(data := if estimate.Success? then Idle
                                                    else Failed(Message(estimate.error)))];
      }
    }

    method OnSearched(terms: string, entries: Result<seq<string>, AppError>)
      modifies this
      ensures View() == Store.OnSearched(old(View()), terms, entries)
    {
      if history.terms == terms {
        history := history.(data := Answered(entries));
      }
    }

    /** The row of a run exists. If the run is over already, its outcome was waiting for this. */
    method OnRecorded(q: QueryId, written: Result<RowId, AppError>)
      modifies this
      ensures View() == Store.OnRecorded(old(View()), q, written)
    {
      hide Settle;
      var held := if q in runs then Some(runs[q]) else None;
      runs := runs - {q};
      if written.Failure? {
        return;
      }
      match held {
        case Some(Starting(Some(outcome))) => WriteOutcome(written.value, outcome);
        case Some(Starting(None)) =>
          runs := runs[q := Written(written.value)];
          assert runs == old(runs)[q := Written(written.value)];
        case Some(Written(_)) =>
        case None =>
      }
    }

    method Handle(e: Event)
      modifies this
      ensures View() == Store.Handle(old(View()), e)
    {
      hide DropAll, Store.OnConnected, Store.OnExpanded, Store.OnPreviewed, Store.OnDescribed, Store.OnRan,
           Store.OnEstimated, Store.OnSearched, Store.OnRecorded, Answered;
      if e.Recorded? {
        OnRecorded(e.query, e.written);
        return;
      }
      DropTask(e.busy);
      match e {
        case Connected(c, _, reply) => OnConnected(c, reply);
        case Expanded(c, node, _, children) => OnExpanded(c, node, children);
        case Previewed(rel, page, _, rows) => OnPreviewed(rel, page, rows);
        case Described(rel, _, detail) => OnDescribed(rel, detail);
        case Ran(q, _, output) => OnRan(q, output);
        case Estimated(q, _, estimate) => OnEstimated(q, estimate);
        case Searched(_, terms, entries) => OnSearched(terms, entries);
        case LibraryAnswered(_, wrote, list) => templates := Templates(Answered(list), wrote);
      }
    }

    // ── the loop ────────────────────────────────────────────────────────

    /**
     The loop over what it takes, in the order it takes it, from either queue.
     It publishes what it shows after each, and takes nothing once it is to quit.
     */
    method Run(turns: seq<Turn>) returns (published: seq<State>)
      modifies this
      ensures published == Published(old(View()), turns)
      ensures View() == if published == [] then old(View()) else published[|published| - 1]
    {
      hide Published, TurnOf;
      ghost var before := View();
      published := [];
      var i := 0;
      assert turns[0..] == turns;
      while i < |turns|
        invariant i <= |turns|
        invariant published + Published(View(), turns[i..]) == Published(before, turns)
        invariant View() == if published == [] then before else published[|published| - 1]
      {
        PublishedStep(View(), turns, i);
        ghost var next := TurnOf(View(), turns[i]);
        TakeTurn(turns[i]);
        Regroup(published, [next], if next.shouldQuit then [] else Published(next, turns[i + 1..]));
        published := published + [View()];
        if shouldQuit {
          return;
        }
        i := i + 1;
      }
      PublishedNone(View(), turns[i..]);
    }

    method TakeTurn(turn: Turn)
      modifies this
      ensures View() == TurnOf(old(View()), turn)
    {
      hide Store.Apply, Store.Handle;
      match turn {
        case TakesAction(action, issuer) =>
          applied := applied + 1;
          Apply(action, issuer);
        case TakesEvent(e) => Handle(e);
      }
    }
  }

  method Land(p: Preview, append: bool, page: PageRequest, result: ResultSet<Row>) returns (landed: Preview)
    ensures landed == Landed(p, append, page, result)
  {
    hide IsEnd, Reached;
    var rows := New(result);
    var lastError: Option<string> := None;
    if append && p.data.Ready? {
      var merged := Append(p.data.value, result);
      if merged.Some? {
        rows := merged.value;
      } else {
        lastError := Some(CHANGED_SHAPE);
      }
    }
    landed := p.(pending := None, attempts := p.attempts + 1, lastError := lastError);
    landed := landed.(exhausted := IsEnd(page, result), page := page, nextOffset := Reached(page, |result.rows|));
    landed := landed.(columns := Some(|rows.columns|), loadedRows := rows.rows, data := Ready(rows));
  }

  method Miss(p: Preview, append: bool, why: string) returns (missed: Preview)
    ensures missed == NotLanded(p, append, why)
  {
    missed := p.(pending := None, attempts := p.attempts + 1);
    if append && p.data.Ready? {
      missed := missed.(lastError := Some(why));
    } else {
      missed := missed.(data := Failed(why), loadedRows := 0, lastError := None);
    }
  }

  // ── the loop, on values ─────────────────────────────────────────────────

  datatype Turn = TakesAction(action: Action, issuer: Issuer) | TakesEvent(event: Event)

  function TurnOf(s: State, turn: Turn): State {
    match turn
    case TakesAction(action, issuer) => Store.Apply(s.(applied := s.applied + 1), action, issuer)
    case TakesEvent(e) => Store.Handle(s, e)
  }

  /** What the loop shows after each turn, until it is to quit. */
  function Published(s: State, turns: seq<Turn>): seq<State>
    decreases |turns|
  {
    if turns == [] then []
    else
      var next := TurnOf(s, turns[0]);
      [next] + if next.shouldQuit then [] else Published(next, turns[1..])
  }

  lemma PublishedStep(s: State, turns: seq<Turn>, i: nat)
    requires i < |turns|
    ensures Published(s, turns[i..]) ==
            var next := TurnOf(s, turns[i]);
            [next] + if next.shouldQuit then [] else Published(next, turns[i + 1..])
  {
    hide TurnOf;
    assert turns[i..][1..] == turns[i + 1..];
  }

  lemma PublishedNone(s: State, turns: seq<Turn>)
    requires turns == []
    ensures Published(s, turns) == []
  {
  }

  /** What the loop takes in a run of the whole system. */
  function TurnsOf(w: World, steps: seq<Step>): seq<Turn>
    requires Legal(w, steps)
    decreases |steps|
  {
    if steps == [] then []
    else
      (if steps[0].Acted? then [TakesAction(w.queue[0].0, w.queue[0].1)]
       else if steps[0].Received? then [TakesEvent(w.mailbox[0])]
       else []) + TurnsOf(Next(w, steps[0]), steps[1..])
  }

  lemma QuitTakesNothing(w: World, steps: seq<Step>)
    requires Legal(w, steps) && w.s.shouldQuit
    ensures TurnsOf(w, steps) == [] && After(w, steps).s == w.s
    decreases |steps|
  {
    if steps != [] {
      QuitTakesNothing(Next(w, steps[0]), steps[1..]);
    }
  }

  /** A step is a turn of the loop, or leaves the state alone. */
  lemma StepIsATurn(w: World, step: Step)
    requires Enabled(w, step)
    ensures step.Acted? ==> Next(w, step).s == TurnOf(w.s, TakesAction(w.queue[0].0, w.queue[0].1))
    ensures step.Received? ==> Next(w, step).s == TurnOf(w.s, TakesEvent(w.mailbox[0]))
    ensures !step.Acted? && !step.Received? ==> Next(w, step).s == w.s
  {
    hide Store.Apply, Store.Handle, RepliesTo;
  }

  lemma PublishedMore(s: State, turn: Turn, turns: seq<Turn>)
    ensures Published(s, [turn] + turns) ==
            [TurnOf(s, turn)] + if TurnOf(s, turn).shouldQuit then [] else Published(TurnOf(s, turn), turns)
  {
    hide TurnOf;
    assert ([turn] + turns)[1..] == turns;
  }

  /** In every run, what the loop has published last is the state, and it has published once for everything it took. */
  lemma {:induction false} TheLoopMakesTheRun(w: World, steps: seq<Step>)
    requires Legal(w, steps)
    ensures var published := Published(w.s, TurnsOf(w, steps));
            && |published| == |TurnsOf(w, steps)|
            && After(w, steps).s == if published == [] then w.s else published[|published| - 1]
    decreases |steps|
  {
    hide TurnOf, Enabled, Next;
    if steps != [] {
      var w1 := Next(w, steps[0]);
      var rest := TurnsOf(w1, steps[1..]);
      StepIsATurn(w, steps[0]);
      TheLoopMakesTheRun(w1, steps[1..]);
      if steps[0].Acted? || steps[0].Received? {
        var turn := TurnsOf(w, steps)[0];
        assert TurnsOf(w, steps) == [turn] + rest;
        PublishedMore(w.s, turn, rest);
        if w1.s.shouldQuit {
          QuitTakesNothing(w1, steps[1..]);
        }
      } else {
        assert TurnsOf(w, steps) == rest;
      }
    }
  }

  lemma OwnedByNone(rows: seq<BusyItem>, owner: Owner)
    ensures OwnedBy(rows[..0], owner) == {}
  {
  }

  lemma OrphansStep(s: State, busy: seq<BusyItem>, i: nat, c: ConnId)
    requires i < |busy|
    ensures Orphans(s, busy[i..], c) ==
            if BelongsTo(s, busy[i].owner, c) then [busy[i]] + Orphans(s, busy[i + 1..], c)
            else Orphans(s, busy[i + 1..], c)
  {
    assert busy[i..][1..] == busy[i + 1..];
  }

  lemma DropOrphansStep(s: State, rows: seq<BusyItem>, i: nat)
    requires i < |rows|
    ensures DropOrphans(s, rows[i..]) == DropOrphans(DropOrphan(s, rows[i]), rows[i + 1..])
  {
    hide DropOrphan;
    assert rows[i..][1..] == rows[i + 1..];
  }

  lemma DropOrphansNone(s: State)
    ensures DropOrphans(s, []) == s
  {
  }

  lemma Regroup<T>(a: seq<T>, b: seq<T>, c: seq<T>)
    ensures a + (b + c) == (a + b) + c
  {
  }

  lemma OrphansNone(s: State, c: ConnId)
    ensures Orphans(s, [], c) == []
  {
  }

  lemma OwnedByStep(rows: seq<BusyItem>, owner: Owner, i: nat)
    requires i < |rows|
    ensures OwnedBy(rows[..i + 1], owner) ==
            if rows[i].owner == owner then OwnedBy(rows[..i], owner) + {rows[i].id} else OwnedBy(rows[..i], owner)
  {
    assert rows[..i + 1] == rows[..i] + [rows[i]];
  }

  lemma DropBesideHistory(s: State, ids: set<BusyId>, history: History)
    ensures DropAll(s, ids).(history := history) == DropAll(s.(history := history), ids)
  {
  }
}
