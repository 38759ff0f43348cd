/**
 The rows of work in flight: ids are unique, are the ids of the tasks, and say
 who owns each task. With that, a question about rows is one about tasks.
 */
module Rows {
  import opened Wrappers
  import opened Pages
  import opened Store

  predicate Distinct(busy: seq<BusyItem>) {
    forall i, j :: 0 <= i < j < |busy| ==> busy[i].id != busy[j].id
  }

  /** The row a task must have. */
  function TaskRow(tasks: map<BusyId, Task>, id: BusyId): Option<BusyItem> {
    if id in tasks then Some(BusyItem(id, OwnerOf(tasks[id]))) else None
  }

  /** Every task has its row and every row its task. */
  ghost predicate Mirrors(busy: seq<BusyItem>, tasks: map<BusyId, Task>) {
    forall id: BusyId :: RowOf(busy, id) == TaskRow(tasks, id)
  }

  predicate KnownTasks(tasks: map<BusyId, Task>, spawned: map<BusyId, Task>, nextId: BusyId) {
    && (forall id :: id in tasks ==> id in spawned && spawned[id] == tasks[id])
    && (forall id :: id in spawned ==> id < nextId)
  }

  ghost predicate BusyOk(s: State) {
    && Distinct(s.busy)
    && Mirrors(s.busy, s.tasks)
    && KnownTasks(s.tasks, s.outside.spawned, s.nextId)
  }

  // ── rows by id ──────────────────────────────────────────────────────────

  lemma {:induction false} RowOfExcept(busy: seq<BusyItem>, ids: set<BusyId>, id: BusyId)
    ensures RowOf(Except(busy, ids), id) == if id in ids then None else RowOf(busy, id)
  {
    if busy != [] {
      RowOfExcept(busy[1..], ids, id);
    }
  }

  lemma {:induction false} RowOfMore(busy: seq<BusyItem>, more: BusyItem, id: BusyId)
    ensures RowOf(busy + [more], id) ==
            if RowOf(busy, id).Some? then RowOf(busy, id) else if more.id == id then Some(more) else None
  {
    if busy == [] {
      assert [] + [more] == [more];
      assert [more][1..] == [];
    } else {
      assert (busy + [more])[1..] == busy[1..] + [more];
      RowOfMore(busy[1..], more, id);
    }
  }

  lemma {:induction false} RowIsThere(busy: seq<BusyItem>, id: BusyId)
    ensures RowOf(busy, id).Some? ==> RowOf(busy, id).value in busy && RowOf(busy, id).value.id == id
    ensures RowOf(busy, id).None? ==> forall i :: 0 <= i < |busy| ==> busy[i].id != id
  {
    if busy != [] {
      RowIsThere(busy[1..], id);
    }
  }

  lemma {:induction false} ItemAt(busy: seq<BusyItem>, i: nat)
    requires Distinct(busy) && i < |busy|
    ensures RowOf(busy, busy[i].id) == Some(busy[i])
  {
    if i > 0 {
      ItemAt(busy[1..], i - 1);
    }
  }

  lemma {:induction false} ExceptIsDistinct(busy: seq<BusyItem>, ids: set<BusyId>)
    requires Distinct(busy)
    ensures Distinct(Except(busy, ids))
    ensures forall b :: b in Except(busy, ids) ==> b in busy
  {
    if busy != [] {
      ExceptIsDistinct(busy[1..], ids);
      assert forall b :: b in busy[1..] ==> b.id != busy[0].id;
    }
  }

  // ── what a step does to the work in flight ──────────────────────────────

  /** Nothing, and what the session was started with is what it was. */
  predicate SameWork(s: State, s': State) {
    && s'.busy == s.busy && s'.tasks == s.tasks && s'.nextId == s.nextId && s'.outside.spawned == s.outside.spawned
    && s'.library == s.library && s'.pageSize == s.pageSize
  }

  /** Some rows end, and then at most one task begins. */
  predicate Works(s: State, s': State, ended: set<BusyId>, begun: Option<Task>) {
    var dropped := DropAll(s, ended);
    SameWork(if begun.Some? then Begin(dropped, begun.value) else dropped, s')
  }

  lemma {:induction false} ExceptNone(busy: seq<BusyItem>)
    ensures Except(busy, {}) == busy
  {
    if busy != [] {
      ExceptNone(busy[1..]);
    }
  }

  lemma {:induction false} ExceptTwice(busy: seq<BusyItem>, a: set<BusyId>, b: set<BusyId>)
    ensures Except(Except(busy, a), b) == Except(busy, a + b)
  {
    if busy != [] {
      ExceptTwice(busy[1..], a, b);
    }
  }

  lemma NothingEnds(s: State)
    ensures SameWork(s, DropAll(s, {}))
  {
    ExceptNone(s.busy);
    assert s.tasks - {} == s.tasks;
  }

  lemma DropTwice(s: State, a: set<BusyId>, b: set<BusyId>)
    ensures SameWork(DropAll(s, a + b), DropAll(DropAll(s, a), b))
  {
    ExceptTwice(s.busy, a, b);
    assert s.tasks - a - b == s.tasks - (a + b);
  }

  lemma SettlingIsNoWork(s: State, row: RowId, outcome: RunOutcome)
    ensures SameWork(s, Settle(s, row, outcome))
  {
  }

  lemma RunsAreNoWork(s: State, runs: map<QueryId, Recording>)
    ensures SameWork(s, s.(runs := runs))
  {
  }

  lemma SameTwice(s: State, s': State, s'': State)
    requires SameWork(s, s') && SameWork(s', s'')
    ensures SameWork(s, s'')
  {
  }

  lemma RecordingIsNoWork(s: State, q: QueryId, outcome: RunOutcome)
    ensures SameWork(s, RecordEnd(s, q, outcome))
  {
    hide Settle, SameWork;
    SameToo(s);
    if q in s.runs {
      match s.runs[q] {
        case Written(row) =>
          RunsAreNoWork(s, s.runs - {q});
          SettlingIsNoWork(s.(runs := s.runs - {q}), row, outcome);
          SameTwice(s, s.(runs := s.runs - {q}), RecordEnd(s, q, outcome));
        case Starting(_) => RunsAreNoWork(s, s.runs[q := Starting(Some(outcome))]);
      }
    }
  }

  /** Giving up on a reply is not itself work. */
  lemma AbandonIsNoWork(s: State, owner: Owner, reason: string)
    ensures SameWork(s, Abandon(s, owner, reason))
  {
    hide T.Flatten, T.FinishLoad, RecordEnd, OrFailed;
    if owner.OfQuery? {
      var q := owner.query;
      var failed := if q in s.queries then s.(queries := s.queries[q := s.queries[q].(data := Failed(reason))]) else s;
      RecordingIsNoWork(failed, q, if reason == CANCELLED then RunCancelled else RunFailed(reason));
    }
  }

  lemma DropOrphanWorks(s: State, row: BusyItem)
    ensures SameWork(Drop(s, row.id), DropOrphan(s, row))
  {
    hide Abandon, DropAll;
    AbandonIsNoWork(Drop(s, row.id), row.owner, DISCONNECTED);
  }

  function Ids(rows: seq<BusyItem>): set<BusyId> {
    set row | row in rows :: row.id
  }

  lemma IdsStep(rows: seq<BusyItem>)
    ensures Ids(rows) == if rows == [] then {} else {rows[0].id} + Ids(rows[1..])
  {
    if rows != [] {
      assert rows == [rows[0]] + rows[1..];
    }
  }

  lemma DropIsTheSame(s: State, s': State, ids: set<BusyId>)
    requires SameWork(s, s')
    ensures SameWork(DropAll(s, ids), DropAll(s', ids))
  {
  }

  lemma {:induction false} OrphansWork(s: State, rows: seq<BusyItem>)
    ensures SameWork(DropAll(s, Ids(rows)), DropOrphans(s, rows))
    decreases |rows|
  {
    hide DropAll, DropOrphan, Ids;
    IdsStep(rows);
    if rows == [] {
      NothingEnds(s);
    } else {
      var first := rows[0].id;
      DropOrphanWorks(s, rows[0]);
      OrphansWork(DropOrphan(s, rows[0]), rows[1..]);
      DropIsTheSame(Drop(s, first), DropOrphan(s, rows[0]), Ids(rows[1..]));
      DropTwice(s, {first}, Ids(rows[1..]));
    }
  }

  // ── what keeps the rows ─────────────────────────────────────────────────

  lemma DropKeepsRows(s: State, ids: set<BusyId>)
    requires BusyOk(s)
    ensures BusyOk(DropAll(s, ids))
  {
    hide Except;
    ExceptIsDistinct(s.busy, ids);
    forall id: BusyId
      ensures RowOf(Except(s.busy, ids), id) == TaskRow(s.tasks - ids, id)
    {
      RowOfExcept(s.busy, ids, id);
    }
  }

  lemma BeginKeepsRows(s: State, task: Task)
    requires BusyOk(s)
    ensures BusyOk(Begin(s, task))
  {
    var row := BusyItem(s.nextId, OwnerOf(task));
    var tasks := s.tasks[s.nextId := task];
    assert s.nextId !in s.tasks;
    assert RowOf(s.busy, s.nextId) == None;
    RowIsThere(s.busy, s.nextId);
    forall id: BusyId
      ensures RowOf(s.busy + [row], id) == TaskRow(tasks, id)
    {
      RowOfMore(s.busy, row, id);
    }
  }

  lemma WorkKeepsRows(s: State, s': State, ended: set<BusyId>, begun: Option<Task>)
    requires BusyOk(s) && Works(s, s', ended, begun)
    ensures BusyOk(s')
  {
    hide Except, Mirrors, Distinct, KnownTasks;
    DropKeepsRows(s, ended);
    if begun.Some? {
      BeginKeepsRows(DropAll(s, ended), begun.value);
    }
  }

  // ── the work of each action ─────────────────────────────────────────────

  /** When each task may begin. */
  predicate Starts(s: State, a: Action, t: Task) {
    match t
    case Connect(c) => c !in s.conns && a.DoConnect? && a.conn == c
    case ExpandNode(c, _) => SessionOf(s, c).Some?
    case FetchPage(rel, _) => SessionOf(s, rel.conn).Some?
    case DescribeTable(rel) => SessionOf(s, rel.conn).Some?
    case Run(q) => q !in s.queries && a.DoRun? && a.query == q && SessionOf(s, a.conn).Some?
    case RunOver(q, over) =>
      a == DoApprove(q) && q in s.queries && s.queries[q].needsApproval == Some(over)
      && SessionOf(s, s.queries[q].conn).Some?
    case Estimating(q) => q !in s.queries && a.DoEstimate? && a.query == q && SessionOf(s, a.conn).Some?
    case Searching(_) => s.library
    case Library => s.library
  }

  lemma QuietWorks(s: State, s': State)
    requires SameWork(s, s')
    ensures Works(s, s', {}, None)
  {
    hide DropAll;
    NothingEnds(s);
  }

  lemma BeginWorks(s: State, s': State, task: Task)
    requires SameWork(s, s')
    ensures Works(s, Begin(s', task), {}, Some(task))
  {
    hide DropAll;
    NothingEnds(s);
  }

  lemma ReplaceWorks(s: State, s': State, ended: set<BusyId>, task: Task)
    requires SameWork(s, s')
    ensures Works(s, Begin(DropAll(s', ended), task), ended, Some(task))
  {
  }

  lemma EndWorks(s: State, s': State, ended: set<BusyId>)
    requires SameWork(s, s')
    ensures Works(s, DropAll(s', ended), ended, None)
  {
  }

  /** What changes nothing about work can be put after what does. */
  lemma ThenQuiet(s: State, s': State, s'': State, ended: set<BusyId>, begun: Option<Task>)
    requires Works(s, s', ended, begun) && SameWork(s', s'')
    ensures Works(s, s'', ended, begun)
  {
    hide DropAll, Begin;
  }

  lemma DisconnectWorks(s: State, c: ConnId) returns (ended: set<BusyId>)
    ensures Works(s, Disconnect(s, c), ended, None)
    ensures ended == Ids(Orphans(CloseConn(s, c), s.busy, c))
  {
    hide Orphans, DropOrphans, Works, DropAll;
    var closed := CloseConn(s, c);
    var rows := Orphans(closed, closed.busy, c);
    ended := Ids(rows);
    EndWorks(s, closed, ended);
    OrphansWork(closed, rows);
    ThenQuiet(s, DropAll(closed, ended), DropOrphans(closed, rows), ended, None);
    ThenQuiet(s, DropOrphans(closed, rows), Disconnect(s, c), ended, None);
  }

  lemma CancelWorks(s: State, id: BusyId)
    ensures Works(s, Cancel(s, id), {id}, None)
  {
    hide RowOf, Works, DropAll, Abandon, SameWork;
    SameToo(s);
    EndWorks(s, s, {id});
    var row := RowOf(s.busy, id);
    if row.Some? {
      AbandonIsNoWork(Drop(s, id), row.value.owner, CANCELLED);
      ThenQuiet(s, Drop(s, id), Cancel(s, id), {id}, None);
    }
  }

  lemma SameToo(s: State)
    ensures SameWork(s, s)
  {
  }

  /** The row of the request a preview is waiting for. */
  function Superseded(s: State, rel: Relation): set<BusyId> {
    if rel in s.previews && s.previews[rel].pending.Some? then {s.previews[rel].pending.value.busy} else {}
  }

  lemma FetchWorks(s: State, s': State, rel: Relation, page: PageRequest, append: bool)
    returns (ended: set<BusyId>, begun: Option<Task>)
    requires SameWork(s, s')
    ensures Works(s, Fetch(s', rel, page, append), ended, begun)
    ensures begun == if SessionOf(s', rel.conn).Some? then Some(FetchPage(rel, page)) else None
    ensures ended <= Superseded(s', rel)
    ensures begun.None? ==> Fetch(s', rel, page, append) == s'
  {
    hide Works, DropAll, Begin;
    var task := FetchPage(rel, page);
    ended, begun := {}, None;
    if SessionOf(s', rel.conn).None? {
      QuietWorks(s, s');
    } else if rel in s'.previews && s'.previews[rel].pending.Some? {
      ended, begun := {s'.previews[rel].pending.value.busy}, Some(task);
      ReplaceWorks(s, s', ended, task);
      ThenQuiet(s, Begin(DropAll(s', ended), task), Fetch(s', rel, page, append), ended, begun);
    } else {
      begun := Some(task);
      BeginWorks(s, s', task);
      ThenQuiet(s, Begin(s', task), Fetch(s', rel, page, append), ended, begun);
    }
  }

  lemma PreviewWorks(s: State, rel: Relation) returns (ended: set<BusyId>, begun: Option<Task>)
    ensures Works(s, PreviewTable(s, rel), ended, begun) && ended <= Superseded(s, rel)
    ensures begun.Some? ==> SessionOf(s, rel.conn).Some? && begun.value.FetchPage? && begun.value.rel == rel
    ensures begun.None? ==> PreviewTable(s, rel) == s
  {
    hide Works, Fetch;
    ended, begun := {}, None;
    if rel.table == [] || SessionOf(s, rel.conn).None? {
      QuietWorks(s, s);
    } else if rel in s.previews {
      var p := s.previews[rel];
      if p.data.Failed? {
        var page := FirstPage(s, p.sort);
        ended, begun := FetchWorks(s, s.(previews := s.previews[rel :=
                   p.(page := page, nextOffset := 0, data := Loading, loadedRows := 0, exhausted := false)]),
                   rel, page, false);
      } else {
        QuietWorks(s, s);
      }
    } else {
      var page := FirstPage(s, None);
      ended, begun := FetchWorks(s, s.(previews := s.previews[rel := NewPreview(page)]), rel, page, false);
    }
  }

  lemma SortWorks(s: State, rel: Relation, column: nat) returns (ended: set<BusyId>, begun: Option<Task>)
    ensures Works(s, SortPreview(s, rel, column), ended, begun) && ended <= Superseded(s, rel)
    ensures begun.Some? ==> SessionOf(s, rel.conn).Some? && begun.value.FetchPage? && begun.value.rel == rel
    ensures begun.None? ==> SortPreview(s, rel, column) == s
  {
    hide Works, Fetch, NextSort;
    var session := SessionOf(s, rel.conn);
    ended, begun := {}, None;
    if session.None? || !session.value.sortable || rel !in s.previews
       || column >= (if s.previews[rel].columns.Some? then s.previews[rel].columns.value else 1) {
      QuietWorks(s, s);
    } else {
      var p := s.previews[rel];
      var sort := Some(NextSort(p, column));
      ended, begun := FetchWorks(s, s.(previews := s.previews[rel :=
                   p.(sort := sort, data := Loading, loadedRows := 0, nextOffset := 0, exhausted := false)]),
              rel, FirstPage(s, sort), false);
    }
  }

  lemma LoadMoreWorks(s: State, rel: Relation) returns (ended: set<BusyId>, begun: Option<Task>)
    ensures Works(s, LoadMore(s, rel), ended, begun) && ended <= Superseded(s, rel)
    ensures begun.Some? ==> SessionOf(s, rel.conn).Some? && begun.value.FetchPage? && begun.value.rel == rel
    ensures begun.None? ==> LoadMore(s, rel) == s
  {
    hide Works, Fetch;
    ended, begun := {}, None;
    QuietWorks(s, s);
    if rel in s.previews {
      var p := s.previews[rel];
      if p.pending.None? && p.data.Ready? && !p.exhausted {
        ended, begun := FetchWorks(s, s, rel, p.page.(offset := p.nextOffset), true);
      }
    }
  }

  lemma ForgetPreviewWorks(s: State, rel: Relation) returns (ended: set<BusyId>)
    ensures Works(s, ForgetPreview(s, rel), ended, None) && ended <= Superseded(s, rel)
  {
    hide Works, DropAll;
    ended := {};
    QuietWorks(s, s);
    if rel in s.previews {
      if s.previews[rel].pending.Some? {
        ended := {s.previews[rel].pending.value.busy};
        EndWorks(s, s, ended);
        ThenQuiet(s, DropAll(s, ended), ForgetPreview(s, rel), ended, None);
      } else {
        ThenQuiet(s, s, ForgetPreview(s, rel), ended, None);
      }
    }
  }

  lemma DescribeWorks(s: State, rel: Relation, refresh: bool) returns (ended: set<BusyId>, begun: Option<Task>)
    ensures Works(s, Describe(s, rel, refresh), ended, begun) && ended <= OwnedBy(s.busy, OfDefinition(rel))
    ensures begun.Some? ==> SessionOf(s, rel.conn).Some? && begun.value == DescribeTable(rel)
    ensures begun.None? ==> Describe(s, rel, refresh) == s
  {
    hide Works, DropAll, Begin, OwnedBy;
    ended, begun := {}, None;
    QuietWorks(s, s);
    if SessionOf(s, rel.conn).Some? && rel.table != []
       && (rel in s.definitions && !refresh ==> s.definitions[rel].Failed?) {
      ended, begun := OwnedBy(s.busy, OfDefinition(rel)), Some(DescribeTable(rel));
      ReplaceWorks(s, s.(definitions := s.definitions[rel := Loading]), ended, DescribeTable(rel));
    }
  }

  lemma ForgettingWorks(s: State, rel: Relation, q: QueryId)
    ensures Works(s, ForgetDefinition(s, rel), OwnedBy(s.busy, OfDefinition(rel)), None)
    ensures Works(s, ForgetQuery(s, q), OwnedBy(s.busy, OfQuery(q)), None)
  {
    hide Works, DropAll, OwnedBy;
    EndWorks(s, s, OwnedBy(s.busy, OfDefinition(rel)));
    EndWorks(s, s, OwnedBy(s.busy, OfQuery(q)));
    ThenQuiet(s, DropAll(s, OwnedBy(s.busy, OfDefinition(rel))), ForgetDefinition(s, rel),
              OwnedBy(s.busy, OfDefinition(rel)), None);
    ThenQuiet(s, DropAll(s, OwnedBy(s.busy, OfQuery(q))), ForgetQuery(s, q), OwnedBy(s.busy, OfQuery(q)), None);
  }

  lemma WithTreeIsNoWork(s: State, c: ConnId, tree: T.Tree)
    requires c in s.conns
    ensures SameWork(s, WithTree(s, c, tree))
  {
    hide T.Flatten;
  }

  function Opened(s: State, c: ConnId, node: T.NodeRef, toggle: bool): (T.Tree, T.Toggled)
    requires c in s.conns
  {
    if toggle then T.Toggle(s.conns[c].tree, node) else T.Expand(s.conns[c].tree, node)
  }

  /** Opening the node needs its children, which are not there. */
  predicate Fetches(s: State, c: ConnId, node: T.NodeRef, toggle: bool) {
    && node.path != [] && SessionOf(s, c).Some? && T.Contains(s.conns[c].tree, node)
    && Opened(s, c, node, toggle).1 == T.Load
  }

  lemma OpenNodeWorks(s: State, c: ConnId, node: T.NodeRef, toggle: bool) returns (begun: Option<Task>)
    ensures Works(s, OpenNode(s, c, node, toggle), {}, begun)
    ensures begun.Some? ==> SessionOf(s, c).Some? && begun.value == ExpandNode(c, node)
    ensures begun.Some? <==> Fetches(s, c, node, toggle)
  {
    hide Works, Begin, T.Contains, T.Toggle, T.Expand, WithTree;
    begun := None;
    if node.path == [] {
      QuietWorks(s, OpenNode(s, c, node, toggle));
    } else if SessionOf(s, c).None? || !T.Contains(s.conns[c].tree, node) {
      QuietWorks(s, s);
    } else {
      var (tree, answer) := if toggle then T.Toggle(s.conns[c].tree, node) else T.Expand(s.conns[c].tree, node);
      WithTreeIsNoWork(s, c, tree);
      if answer == T.Local {
        QuietWorks(s, WithTree(s, c, tree));
      } else {
        begun := Some(ExpandNode(c, node));
        BeginWorks(s, WithTree(s, c, tree), ExpandNode(c, node));
      }
    }
  }

  lemma ConnectWorks(s: State, profile: string, c: ConnId) returns (begun: Option<Task>)
    ensures Works(s, ConnectTo(s, profile, c), {}, begun)
    ensures begun == if c in s.conns || profile !in s.profiles || !s.profiles[profile] then None else Some(Connect(c))
  {
    hide Works, Begin;
    begun := None;
    if c in s.conns || profile !in s.profiles || !s.profiles[profile] {
      QuietWorks(s, ConnectTo(s, profile, c));
    } else {
      begun := Some(Connect(c));
      BeginWorks(s, s.(conns := s.conns[c := NewConn(Connecting)]), Connect(c));
    }
  }

  lemma RecordStartIsNoWork(s: State, q: QueryId, c: ConnId, sql: string, issuer: Issuer)
    ensures SameWork(s, RecordStart(s, q, c, sql, issuer))
  {
  }

  lemma ApproveWorks(s: State, q: QueryId, issuer: Issuer) returns (begun: Option<Task>)
    ensures Works(s, ApproveQuery(s, q, issuer), {}, begun)
    ensures begun.Some? ==> begun.value.RunOver? && begun.value.query == q && Starts(s, DoApprove(q), begun.value)
    ensures begun.None? ==> ApproveQuery(s, q, issuer) == s
  {
    hide Works, Begin, RecordStart;
    begun := None;
    if q in s.queries && SessionOf(s, s.queries[q].conn).Some? && s.queries[q].needsApproval.Some? {
      var query := s.queries[q];
      var ready := s.(queries := s.queries[q := query.(needsApproval := None, data := Loading)]);
      RecordStartIsNoWork(ready, q, query.conn, query.sql, issuer);
      begun := Some(RunOver(q, query.needsApproval.value));
      BeginWorks(s, RecordStart(ready, q, query.conn, query.sql, issuer), begun.value);
    } else {
      QuietWorks(s, s);
    }
  }

  lemma RunWorks(s: State, c: ConnId, q: QueryId, sql: string, issuer: Issuer) returns (begun: Option<Task>)
    ensures Works(s, RunQuery(s, c, q, sql, issuer), {}, begun)
    ensures begun.Some? ==> begun.value == Run(q) && Starts(s, DoRun(c, q, sql), begun.value)
    ensures begun.None? ==> RunQuery(s, c, q, sql, issuer) == s
  {
    hide Works, Begin, RecordStart;
    begun := None;
    if SessionOf(s, c).None? || q in s.queries {
      QuietWorks(s, s);
    } else {
      var ready := s.(queries := s.queries[q := Query(c, sql, None, Loading)]);
      RecordStartIsNoWork(ready, q, c, sql, issuer);
      begun := Some(Run(q));
      BeginWorks(s, RecordStart(ready, q, c, sql, issuer), Run(q));
    }
  }

  lemma EstimateWorks(s: State, c: ConnId, q: QueryId, sql: string) returns (begun: Option<Task>)
    ensures Works(s, EstimateQuery(s, c, q, sql), {}, begun)
    ensures begun.Some? ==> begun.value == Estimating(q) && Starts(s, DoEstimate(c, q, sql), begun.value)
    ensures begun.None? ==> EstimateQuery(s, c, q, sql) == s
  {
    hide Works, Begin;
    begun := None;
    if SessionOf(s, c).None? || q in s.queries {
      QuietWorks(s, s);
    } else {
      begun := Some(Estimating(q));
      BeginWorks(s, s.(queries := s.queries[q := Query(c, sql, None, Loading)]), Estimating(q));
    }
  }

  lemma LibraryWorks(s: State, terms: string, writing: bool)
    ensures !s.library ==> Works(s, SearchHistory(s, terms), {}, None) && Works(s, WithLibrary(s, writing), {}, None)
    ensures s.library ==> Works(s, SearchHistory(s, terms), OwnedBy(s.busy, OfHistory), Some(Searching(terms)))
    ensures s.library ==> Works(s, WithLibrary(s, writing), {}, Some(Library))
  {
    hide Works, Begin, DropAll, OwnedBy;
    if s.library {
      ReplaceWorks(s, s.(history := History(terms, if s.history.data.Ready? then s.history.data else Loading)),
                   OwnedBy(s.busy, OfHistory), Searching(terms));
      var data := if s.templates.data.Ready? then s.templates.data else Loading;
      BeginWorks(s, s.(templates := Templates(data, None)), Library);
    } else {
      QuietWorks(s, SearchHistory(s, terms));
      QuietWorks(s, WithLibrary(s, writing));
    }
  }

  /** What any action does to the work in flight. */
  lemma ApplyWorks(s: State, a: Action, issuer: Issuer) returns (ended: set<BusyId>, begun: Option<Task>)
    ensures Works(s, Apply(s, a, issuer), ended, begun)
    ensures begun.Some? ==> Starts(s, a, begun.value)
  {
    hide Works, ConnectTo, Disconnect, OpenNode, PreviewTable, Describe, ForgetDefinition, SortPreview, LoadMore,
         ForgetPreview, RunQuery, EstimateQuery, ApproveQuery, ForgetQuery, SearchHistory, WithLibrary, Cancel;
    ended, begun := {}, None;
    match a {
      case DoConnect(profile, c) => begun := ConnectWorks(s, profile, c);
      case DoDisconnect(c) => ended := DisconnectWorks(s, c);
      case DoToggleNode(c, node) => begun := OpenNodeWorks(s, c, node, true);
      case DoExpandNode(c, node) => begun := OpenNodeWorks(s, c, node, false);
      case DoPreview(rel) => ended, begun := PreviewWorks(s, rel);
      case DoDescribe(rel, refresh) => ended, begun := DescribeWorks(s, rel, refresh);
      case DoForgetDefinition(rel) => ForgettingWorks(s, rel, 0); ended := OwnedBy(s.busy, OfDefinition(rel));
      case DoSort(rel, column) => ended, begun := SortWorks(s, rel, column);
      case DoLoadMore(rel) => ended, begun := LoadMoreWorks(s, rel);
      case DoForgetPreview(rel) => ended := ForgetPreviewWorks(s, rel);
      case DoRun(c, q, sql) => begun := RunWorks(s, c, q, sql, issuer);
      case DoEstimate(c, q, sql) => begun := EstimateWorks(s, c, q, sql);
      case DoApprove(q) => begun := ApproveWorks(s, q, issuer);
      case DoForgetQuery(q) => ForgettingWorks(s, Relation(0, []), q); ended := OwnedBy(s.busy, OfQuery(q));
      case DoLoadTemplates => LibraryWorks(s, "", false); begun := if s.library then Some(Library) else None;
      case DoWriteTemplate => LibraryWorks(s, "", true); begun := if s.library then Some(Library) else None;
      case DoSearch(terms) =>
        LibraryWorks(s, terms, false);
        if s.library {
          ended, begun := OwnedBy(s.busy, OfHistory), Some(Searching(terms));
        }
      case DoCancel(id) => CancelWorks(s, id); ended := {id};
      case DoQuit => QuietWorks(s, Apply(s, a, issuer));
    }
  }

  // ── the work of each event ──────────────────────────────────────────────

  /** The row an event ends. */
  function Ends(e: Event): set<BusyId> {
    if e.Recorded? then {} else {e.busy}
  }

  lemma RanIsNoWork(s: State, q: QueryId, output: Result<RunOutput, AppError>)
    ensures SameWork(s, OnRan(s, q, output))
  {
    hide RecordEnd, Heard, OutcomeOf;
    if q in s.queries {
      RecordingIsNoWork(s.(queries := s.queries[q := Heard(s.queries[q], output)]), q, OutcomeOf(output));
    }
  }

  lemma SessionDiedIsNoWork(s: State, c: ConnId)
    ensures SameWork(s, SessionDied(s, c))
  {
  }

  lemma OutsideIsNoWork(s: State, outside: Outside)
    requires outside.spawned == s.outside.spawned
    ensures SameWork(s, s.(outside := outside))
  {
  }

  lemma ConnIsNoWork(s: State, conns: map<ConnId, Conn>)
    ensures SameWork(s, s.(conns := conns))
  {
  }

  lemma ConnectedIsNoWork(s: State, c: ConnId, reply: Result<ConnectOutput, AppError>)
    ensures SameWork(s, OnConnected(s, c, reply))
  {
    hide SameWork, T.Flatten, T.SetRoots, Message;
    if reply.Success? && !(c in s.conns && s.conns[c].status == Connecting) {
      OutsideIsNoWork(s, s.outside.(closed := s.outside.closed + [reply.value.session.id]));
    } else if c in s.conns {
      ConnIsNoWork(s, OnConnected(s, c, reply).conns);
    } else {
      SameToo(s);
    }
  }

  lemma ExpandedIsNoWork(s: State, c: ConnId, node: T.NodeRef, children: Result<T.Children, AppError>)
    ensures SameWork(s, OnExpanded(s, c, node, children))
  {
    hide WithTree, SessionDied, T.FinishLoad;
    var outcome := match children case Success(v) => Success(v) case Failure(e) => Failure(Message(e));
    var finished := if c in s.conns then WithTree(s, c, T.FinishLoad(s.conns[c].tree, node, outcome)) else s;
    if c in s.conns {
      WithTreeIsNoWork(s, c, T.FinishLoad(s.conns[c].tree, node, outcome));
    }
    SessionDiedIsNoWork(finished, c);
  }

  lemma ToldIsNoWork(s: State, rel: Relation, page: PageRequest, rows: Result<ResultSet<Row>, AppError>)
    ensures SameWork(s, Told(s, rel, page, rows))
  {
    hide Landed, NotLanded, Message;
  }

  lemma PreviewedIsNoWork(s: State, rel: Relation, page: PageRequest, rows: Result<ResultSet<Row>, AppError>)
    ensures SameWork(s, OnPreviewed(s, rel, page, rows))
  {
    hide Told, SessionDied, Awaited;
    ToldIsNoWork(s, rel, page, rows);
    SessionDiedIsNoWork(Told(s, rel, page, rows), rel.conn);
  }

  lemma DescribedIsNoWork(s: State, rel: Relation, detail: Result<string, AppError>)
    ensures SameWork(s, OnDescribed(s, rel, detail))
  {
    hide Answered;
  }

  lemma EstimatedIsNoWork(s: State, q: QueryId, estimate: Result<A.Estimate, AppError>)
    ensures SameWork(s, OnEstimated(s, q, estimate))
  {
    hide Message;
  }

  lemma SearchedIsNoWork(s: State, terms: string, entries: Result<seq<string>, AppError>)
    ensures SameWork(s, OnSearched(s, terms, entries))
  {
    hide Answered, SameWork;
    SameToo(s);
    HistoryIsNoWork(s, s.history.(data := Answered(entries)));
  }

  lemma HistoryIsNoWork(s: State, history: History)
    ensures SameWork(s, s.(history := history))
  {
  }

  lemma ReplyIsNoWork(s: State, e: Event)
    requires !e.Recorded? && !e.Ran?
    ensures SameWork(Drop(s, e.busy), Handle(s, e))
  {
    hide SameWork, DropAll, OnConnected, OnExpanded, OnPreviewed, OnDescribed, OnEstimated, OnSearched, Answered;
    var dropped := Drop(s, e.busy);
    match e {
      case Connected(c, _, reply) => ConnectedIsNoWork(dropped, c, reply);
      case Expanded(c, node, _, children) => ExpandedIsNoWork(dropped, c, node, children);
      case Previewed(rel, page, _, rows) => PreviewedIsNoWork(dropped, rel, page, rows);
      case Described(rel, _, detail) => DescribedIsNoWork(dropped, rel, detail);
      case Estimated(q, _, estimate) => EstimatedIsNoWork(dropped, q, estimate);
      case Searched(_, terms, entries) => SearchedIsNoWork(dropped, terms, entries);
      case LibraryAnswered(_, wrote, list) => TemplatesAreNoWork(dropped, Templates(Answered(list), wrote));
    }
  }

  lemma TemplatesAreNoWork(s: State, templates: Templates)
    ensures SameWork(s, s.(templates := templates))
  {
  }

  lemma RecordedIsNoWork(s: State, q: QueryId, written: Result<RowId, AppError>)
    ensures SameWork(s, OnRecorded(s, q, written))
  {
    hide Settle;
    if written.Success? && q in s.runs && s.runs[q].Starting? && s.runs[q].outcome.Some? {
      SettlingIsNoWork(s.(runs := s.runs - {q}), written.value, s.runs[q].outcome.value);
    }
  }

  /** Any event ends its own row, and begins nothing. */
  lemma HandleWorks(s: State, e: Event)
    ensures Works(s, Handle(s, e), Ends(e), None)
  {
    hide Works, DropAll, OnConnected, OnExpanded, OnPreviewed, OnDescribed, OnRan, OnEstimated, OnSearched, OnRecorded;
    SameToo(s);
    if e.Recorded? {
      RecordedIsNoWork(s, e.query, e.written);
      QuietWorks(s, Handle(s, e));
    } else {
      EndWorks(s, s, {e.busy});
      if e.Ran? {
        RanIsNoWork(Drop(s, e.busy), e.query, e.output);
      } else {
        ReplyIsNoWork(s, e);
      }
      ThenQuiet(s, Drop(s, e.busy), Handle(s, e), {e.busy}, None);
    }
  }
}
