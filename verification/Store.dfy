/**
 The application state and what each action and each event makes of it:
 `Runtime` of crates/sqlake-app/src/store.rs, as a value.

 What the program does to the world outside itself (the tasks it spawns, the
 sessions it closes or loses, the history rows it starts and settles) is
 recorded in the state as well, so that it can be reasoned about.
 */
module Store {
  import opened Wrappers
  import opened Pages
  import A = Approval
  import T = Tree

  type ConnId = nat
  type QueryId = nat
  type BusyId = nat
  type SessionId = nat
  type RowId = nat
  type TableRef = seq<string>
  type Row = seq<string>

  /** A relation of a connection. */
  datatype Relation = Relation(conn: ConnId, table: TableRef)

  datatype LoadState<+V> = Idle | Loading | Ready(value: V) | Failed(why: string)

  // ── entities ────────────────────────────────────────────────────────────

  datatype ConnStatus = Connecting | Open | Broken(why: string) | Closed

  datatype Session = Session(id: SessionId, sortable: bool)

  datatype Conn = Conn(
    status: ConnStatus,
    session: Option<Session>,
    access: A.Access,
    expanded: bool,
    tree: T.Tree,
    view: seq<T.VisibleNode>
  )

  datatype SortDir = Asc | Desc

  datatype Sort = Sort(column: nat, dir: SortDir)

  datatype PageRequest = PageRequest(offset: nat, limit: nat, sort: Option<Sort>)

  /** What a preview waits for: the page asked for, its row of work, and whether its rows are to be added. */
  datatype PendingPage = PendingPage(busy: BusyId, page: PageRequest, append: bool)

  datatype Preview = Preview(
    sort: Option<Sort>,
    page: PageRequest,
    nextOffset: nat,
    columns: Option<nat>,
    pending: Option<PendingPage>,
    data: LoadState<Paged<Row>>,
    loadedRows: nat,
    lastError: Option<string>,
    exhausted: bool,
    attempts: nat
  )

  datatype Query = Query(conn: ConnId, sql: string, needsApproval: Option<A.OverBudget>, data: LoadState<Paged<Row>>)

  datatype Templates = Templates(data: LoadState<seq<string>>, failed: Option<string>)

  datatype History = History(terms: string, data: LoadState<seq<string>>)

  datatype RunOutcome = RunOk(rows: nat) | RunRefused(message: string) | RunCancelled | RunFailed(message: string)

  /** Whether a run's row has been written: if not, perhaps the outcome it is to be told; if so, which row. */
  datatype Recording = Starting(outcome: Option<RunOutcome>) | Written(row: RowId)

  datatype Issuer = Human | Agent

  datatype RunStart = RunStart(query: QueryId, conn: ConnId, sql: string, issuer: Issuer)

  // ── work in flight ──────────────────────────────────────────────────────

  datatype Owner =
    | OfConnection(conn: ConnId)
    | OfNode(conn: ConnId, node: T.NodeRef)
    | OfPreview(rel: Relation)
    | OfDefinition(rel: Relation)
    | OfQuery(query: QueryId)
    | OfHistory
    | OfTemplates

  datatype BusyItem = BusyItem(id: BusyId, owner: Owner)

  /** What a spawned task was asked to do, which is what its reply is a reply to. */
  datatype Task =
    | Connect(conn: ConnId)
    | ExpandNode(conn: ConnId, node: T.NodeRef)
    | FetchPage(rel: Relation, page: PageRequest)
    | DescribeTable(rel: Relation)
    | Run(query: QueryId)
    | RunOver(query: QueryId, over: A.OverBudget)
    | Estimating(query: QueryId)
    | Searching(terms: string)
    | Library

  function OwnerOf(t: Task): Owner {
    match t
    case Connect(c) => OfConnection(c)
    case ExpandNode(c, n) => OfNode(c, n)
    case FetchPage(rel, _) => OfPreview(rel)
    case DescribeTable(rel) => OfDefinition(rel)
    case Run(q) => OfQuery(q)
    case RunOver(q, _) => OfQuery(q)
    case Estimating(q) => OfQuery(q)
    case Searching(_) => OfHistory
    case Library => OfTemplates
  }

  datatype State = State(
    pageSize: nat,
    library: bool,
    /** The profiles listed, and whether this build has the driver each names. */
    profiles: map<string, bool>,
    conns: map<ConnId, Conn>,
    previews: map<Relation, Preview>,
    definitions: map<Relation, LoadState<string>>,
    queries: map<QueryId, Query>,
    templates: Templates,
    history: History,
    runs: map<QueryId, Recording>,
    busy: seq<BusyItem>,
    tasks: map<BusyId, Task>,
    nextId: BusyId,
    shouldQuit: bool,
    applied: nat,
    outside: Outside
  )

  /** Everything done to the world outside so far. */
  datatype Outside = Outside(
    spawned: map<BusyId, Task>,
    closed: seq<SessionId>,
    lost: seq<SessionId>,
    started: seq<RunStart>,
    settled: seq<(RowId, RunOutcome)>
  )

  const NOTHING_KEPT := "this session is not keeping anything"
  const CANCELLED := "cancelled"
  const DISCONNECTED := "the connection was closed"
  const SESSION_CLOSED := "connection is closed"
  const NO_DRIVER := "unknown driver"

  function Start(pageSize: nat, library: bool, profiles: map<string, bool>): State {
    State(if pageSize == 0 then 1 else pageSize, library, profiles,
          map[], map[], map[], map[], Templates(Idle, None), History("", Idle), map[],
          [], map[], 1, false, 0, Outside(map[], [], [], [], []))
  }

  // ── busy rows and tasks ─────────────────────────────────────────────────

  /** The rows whose ids are not among `ids`, in order. */
  function Except(busy: seq<BusyItem>, ids: set<BusyId>): seq<BusyItem> {
    if busy == [] then []
    else if busy[0].id in ids then Except(busy[1..], ids)
    else [busy[0]] + Except(busy[1..], ids)
  }

  /** Rows end and their tasks are aborted, if they have not finished already. */
  function DropAll(s: State, ids: set<BusyId>): State {
    s.(busy := Except(s.busy, ids), tasks := s.tasks - ids)
  }

  function Drop(s: State, id: BusyId): State {
    DropAll(s, {id})
  }

  function Begin(s: State, task: Task): State {
    s.(busy := s.busy + [BusyItem(s.nextId, OwnerOf(task))],
       tasks := s.tasks[s.nextId := task],
       nextId := s.nextId + 1,
       outside := s.outside.(spawned := s.outside.spawned[s.nextId := task]))
  }

  function OwnedBy(busy: seq<BusyItem>, owner: Owner): set<BusyId> {
    set b | b in busy && b.owner == owner :: b.id
  }

  function SessionOf(s: State, c: ConnId): Option<Session> {
    if c in s.conns then s.conns[c].session else None
  }

  // ── connections ─────────────────────────────────────────────────────────

  function NewConn(status: ConnStatus): Conn {
    Conn(status, None, A.ReadOnly, true, T.EMPTY, [])
  }

  function ConnectTo(s: State, profile: string, c: ConnId): State {
    if c in s.conns || profile !in s.profiles then s
    else if !s.profiles[profile] then s.(conns := s.conns[c := NewConn(Broken(NO_DRIVER))])
    else Begin(s.(conns := s.conns[c := NewConn(Connecting)]), Connect(c))
  }

  function CloseConn(s: State, c: ConnId): State {
    if c !in s.conns then s
    else
      var conn := s.conns[c];
      s.(conns := s.conns[c := conn.(session := None, status := Closed, tree := T.EMPTY, view := [])],
         outside := if conn.session.Some?
                    then s.outside.(closed := s.outside.closed + [conn.session.value.id])
                    else s.outside)
  }

  /** Whether what a row is for belongs to a connection. */
  predicate BelongsTo(s: State, owner: Owner, c: ConnId) {
    match owner
    case OfConnection(d) => d == c
    case OfNode(d, _) => d == c
    case OfPreview(rel) => rel.conn == c
    case OfDefinition(rel) => rel.conn == c
    case OfQuery(q) => q in s.queries && s.queries[q].conn == c
    case OfHistory => false
    case OfTemplates => false
  }

  function Orphans(s: State, busy: seq<BusyItem>, c: ConnId): seq<BusyItem> {
    if busy == [] then []
    else (if BelongsTo(s, busy[0].owner, c) then [busy[0]] else []) + Orphans(s, busy[1..], c)
  }

  function DropOrphan(s: State, b: BusyItem): State {
    if b.owner.OfQuery? then Abandon(Drop(s, b.id), b.owner, DISCONNECTED) else Drop(s, b.id)
  }

  function DropOrphans(s: State, rows: seq<BusyItem>): State
    decreases |rows|
  {
    if rows == [] then s else DropOrphans(DropOrphan(s, rows[0]), rows[1..])
  }

  function ForgetConn(s: State, c: ConnId): State {
    s.(previews := map rel | rel in s.previews && rel.conn != c :: s.previews[rel],
       definitions := map rel | rel in s.definitions && rel.conn != c :: s.definitions[rel])
  }

  function Disconnect(s: State, c: ConnId): State {
    var closed := CloseConn(s, c);
    ForgetConn(DropOrphans(closed, Orphans(closed, closed.busy, c)), c)
  }

  function WithTree(s: State, c: ConnId, tree: T.Tree): State
    requires c in s.conns
  {
    s.(conns := s.conns[c := s.conns[c].(tree := tree, view := T.Flatten(tree, c))])
  }

  /** `toggle` says whether opening a node may also close it. */
  function OpenNode(s: State, c: ConnId, node: T.NodeRef, toggle: bool): State {
    if node.path == [] then
      if c !in s.conns then s
      else s.(conns := s.conns[c := s.conns[c].(expanded := if toggle then !s.conns[c].expanded else true)])
    else if SessionOf(s, c).None? || !T.Contains(s.conns[c].tree, node) then s
    else
      var (tree, answer) := if toggle then T.Toggle(s.conns[c].tree, node) else T.Expand(s.conns[c].tree, node);
      if answer == T.Local then WithTree(s, c, tree)
      else Begin(WithTree(s, c, tree), ExpandNode(c, node))
  }

  // ── previews ────────────────────────────────────────────────────────────

  function FirstPage(s: State, sort: Option<Sort>): PageRequest {
    PageRequest(0, s.pageSize, sort)
  }

  function Fetch(s: State, rel: Relation, page: PageRequest, append: bool): State {
    if SessionOf(s, rel.conn).None? then s
    else
      var superseded := if rel in s.previews && s.previews[rel].pending.Some?
                        then Drop(s, s.previews[rel].pending.value.busy) else s;
      var begun := Begin(superseded, FetchPage(rel, page));
      if rel !in s.previews then begun
      else
        var pending := Some(PendingPage(superseded.nextId, page, append));
        begun.(previews := s.previews[rel := s.previews[rel].(pending := pending)])
  }

  function NewPreview(page: PageRequest): Preview {
    Preview(None, page, 0, None, None, Loading, 0, None, false, 0)
  }

  function PreviewTable(s: State, rel: Relation): State {
    if rel.table == [] || SessionOf(s, rel.conn).None? then s
    else if rel in s.previews then
      var p := s.previews[rel];
      if !p.data.Failed? then s
      else
        var page := FirstPage(s, p.sort);
        Fetch(s.(previews := s.previews[rel :=
                   p.(page := page, nextOffset := 0, data := Loading, loadedRows := 0, exhausted := false)]),
              rel, page, false)
    else
      var page := FirstPage(s, None);
      Fetch(s.(previews := s.previews[rel := NewPreview(page)]), rel, page, false)
  }

  function Toggled(dir: SortDir): SortDir { if dir == Asc then Desc else Asc }

  function NextSort(p: Preview, column: nat): Sort {
    Sort(column, if p.sort.Some? && p.sort.value.column == column then Toggled(p.sort.value.dir) else Asc)
  }

  function SortPreview(s: State, rel: Relation, column: nat): State {
    var session := SessionOf(s, rel.conn);
    if session.None? || !session.value.sortable || rel !in s.previews then s
    else
      var p := s.previews[rel];
      if column >= (if p.columns.Some? then p.columns.value else 1) then s
      else
        var sort := Some(NextSort(p, column));
        Fetch(s.(previews := s.previews[rel :=
                   p.(sort := sort, data := Loading, loadedRows := 0, nextOffset := 0, exhausted := false)]),
              rel, FirstPage(s, sort), false)
  }

  function LoadMore(s: State, rel: Relation): State {
    if rel !in s.previews then s
    else
      var p := s.previews[rel];
      if p.pending.Some? || !p.data.Ready? || p.exhausted then s
      else Fetch(s, rel, p.page.(offset := p.nextOffset), true)
  }

  function ForgetPreview(s: State, rel: Relation): State {
    if rel !in s.previews then s
    else
      var dropped := if s.previews[rel].pending.Some? then Drop(s, s.previews[rel].pending.value.busy) else s;
      dropped.(previews := s.previews - {rel})
  }

  // ── definitions ─────────────────────────────────────────────────────────

  function Describe(s: State, rel: Relation, refresh: bool): State {
    if SessionOf(s, rel.conn).None? || rel.table == [] then s
    else if rel in s.definitions && !refresh && !s.definitions[rel].Failed? then s
    else
      Begin(DropAll(s.(definitions := s.definitions[rel := Loading]), OwnedBy(s.busy, OfDefinition(rel))),
            DescribeTable(rel))
  }

  function ForgetDefinition(s: State, rel: Relation): State {
    DropAll(s, OwnedBy(s.busy, OfDefinition(rel))).(definitions := s.definitions - {rel})
  }

  // ── queries ─────────────────────────────────────────────────────────────

  function RecordStart(s: State, q: QueryId, c: ConnId, sql: string, issuer: Issuer): State {
    if !s.library || c !in s.conns then s
    else
      s.(runs := s.runs[q := Starting(None)],
         outside := s.outside.(started := s.outside.started + [RunStart(q, c, sql, issuer)]))
  }

  function Settle(s: State, row: RowId, outcome: RunOutcome): State {
    if !s.library then s
    else s.(outside := s.outside.(settled := s.outside.settled + [(row, outcome)]))
  }

  function RecordEnd(s: State, q: QueryId, outcome: RunOutcome): State {
    if q !in s.runs then s
    else
      match s.runs[q]
      case Written(row) => Settle(s.(runs := s.runs - {q}), row, outcome)
      case Starting(_) => s.(runs := s.runs[q := Starting(Some(outcome))])
  }

  function RunQuery(s: State, c: ConnId, q: QueryId, sql: string, issuer: Issuer): State {
    if SessionOf(s, c).None? || q in s.queries then s
    else
      Begin(RecordStart(s.(queries := s.queries[q := Query(c, sql, None, Loading)]), q, c, sql, issuer), Run(q))
  }

  function EstimateQuery(s: State, c: ConnId, q: QueryId, sql: string): State {
    if SessionOf(s, c).None? || q in s.queries then s
    else Begin(s.(queries := s.queries[q := Query(c, sql, None, Loading)]), Estimating(q))
  }

  function ApproveQuery(s: State, q: QueryId, issuer: Issuer): State {
    if q !in s.queries || SessionOf(s, s.queries[q].conn).None? || s.queries[q].needsApproval.None? then s
    else
      var query := s.queries[q];
      Begin(RecordStart(s.(queries := s.queries[q := query.(needsApproval := None, data := Loading)]),
                        q, query.conn, query.sql, issuer),
            RunOver(q, query.needsApproval.value))
  }

  function ForgetQuery(s: State, q: QueryId): State {
    DropAll(s, OwnedBy(s.busy, OfQuery(q))).(queries := s.queries - {q})
  }

  // ── the library ─────────────────────────────────────────────────────────

  function SearchHistory(s: State, terms: string): State {
    if !s.library then s.(history := History(terms, Failed(NOTHING_KEPT)))
    else
      Begin(DropAll(s.(history := History(terms, if s.history.data.Ready? then s.history.data else Loading)),
                    OwnedBy(s.busy, OfHistory)),
            Searching(terms))
  }

  /** A write, when there is one, and then a read, on one task. */
  function WithLibrary(s: State, writing: bool): State {
    if !s.library then
      s.(templates := Templates(Failed(NOTHING_KEPT), if writing then Some(NOTHING_KEPT) else s.templates.failed))
    else
      Begin(s.(templates := Templates(if s.templates.data.Ready? then s.templates.data else Loading, None)), Library)
  }

  // ── giving up ───────────────────────────────────────────────────────────

  function OrFailed<V>(data: LoadState<V>, why: string): LoadState<V> {
    if data.Loading? then Failed(why) else data
  }

  /** What waited for a reply that is now never coming is put into a state somebody can act on. */
  function Abandon(s: State, owner: Owner, reason: string): State {
    match owner
    case OfConnection(c) =>
      if c in s.conns && s.conns[c].status == Connecting
      then s.(conns := s.conns[c := s.conns[c].(status := Broken(reason))]) else s
    case OfNode(c, node) =>
      if c in s.conns then WithTree(s, c, T.FinishLoad(s.conns[c].tree, node, Failure(reason))) else s
    case OfHistory => s.(history := s.history.(data := OrFailed(s.history.data, reason)))
    case OfTemplates => s.(templates := Templates(OrFailed(s.templates.data, reason), Some(reason)))
    case OfQuery(q) =>
      var failed := if q in s.queries then s.(queries := s.queries[q := s.queries[q].(data := Failed(reason))]) else s;
      RecordEnd(failed, q, if reason == CANCELLED then RunCancelled else RunFailed(reason))
    case OfDefinition(rel) =>
      if rel in s.definitions then s.(definitions := s.definitions[rel := Failed(reason)]) else s
    case OfPreview(rel) =>
      if rel !in s.previews then s
      else
        var p := s.previews[rel];
        s.(previews := s.previews[rel :=
             p.(pending := None, attempts := p.attempts + 1, data := if p.data.Ready? then p.data else Failed(reason))])
  }

  function RowOf(busy: seq<BusyItem>, id: BusyId): Option<BusyItem> {
    if busy == [] then None else if busy[0].id == id then Some(busy[0]) else RowOf(busy[1..], id)
  }

  function Cancel(s: State, id: BusyId): State {
    var row := RowOf(s.busy, id);
    var dropped := Drop(s, id);
    if row.Some? then Abandon(dropped, row.value.owner, CANCELLED) else dropped
  }

  // ── actions ─────────────────────────────────────────────────────────────

  datatype Action =
    | DoConnect(profile: string, conn: ConnId)
    | DoDisconnect(conn: ConnId)
    | DoToggleNode(conn: ConnId, node: T.NodeRef)
    | DoExpandNode(conn: ConnId, node: T.NodeRef)
    | DoPreview(rel: Relation)
    | DoDescribe(rel: Relation, refresh: bool)
    | DoForgetDefinition(rel: Relation)
    | DoSort(rel: Relation, column: nat)
    | DoLoadMore(rel: Relation)
    | DoForgetPreview(rel: Relation)
    | DoRun(conn: ConnId, query: QueryId, sql: string)
    | DoEstimate(conn: ConnId, query: QueryId, sql: string)
    | DoApprove(query: QueryId)
    | DoForgetQuery(query: QueryId)
    | DoLoadTemplates
    | DoWriteTemplate
    | DoSearch(terms: string)
    | DoCancel(id: BusyId)
    | DoQuit

  function Apply(s: State, action: Action, issuer: Issuer): State {
    match action
    case DoConnect(profile, c) => ConnectTo(s, profile, c)
    case DoDisconnect(c) => Disconnect(s, c)
    case DoToggleNode(c, node) => OpenNode(s, c, node, true)
    case DoExpandNode(c, node) => OpenNode(s, c, node, false)
    case DoPreview(rel) => PreviewTable(s, rel)
    case DoDescribe(rel, refresh) => Describe(s, rel, refresh)
    case DoForgetDefinition(rel) => ForgetDefinition(s, rel)
    case DoSort(rel, column) => SortPreview(s, rel, column)
    case DoLoadMore(rel) => LoadMore(s, rel)
    case DoForgetPreview(rel) => ForgetPreview(s, rel)
    case DoRun(c, q, sql) => RunQuery(s, c, q, sql, issuer)
    case DoEstimate(c, q, sql) => EstimateQuery(s, c, q, sql)
    case DoApprove(q) => ApproveQuery(s, q, issuer)
    case DoForgetQuery(q) => ForgetQuery(s, q)
    case DoLoadTemplates => WithLibrary(s, false)
    case DoWriteTemplate => WithLibrary(s, true)
    case DoSearch(terms) => SearchHistory(s, terms)
    case DoCancel(id) => Cancel(s, id)
    case DoQuit => s.(shouldQuit := true)
  }

  // ── events ──────────────────────────────────────────────────────────────

  datatype AppError = SessionClosed | Other(message: string)

  function Message(e: AppError): string {
    match e case SessionClosed => SESSION_CLOSED case Other(m) => m
  }

  datatype ConnectOutput = ConnectOutput(session: Session, access: A.Access, roots: T.Children)

  datatype RunOutput = RanRows(result: ResultSet<Row>) | AskFirst(over: A.OverBudget)

  datatype Event =
    | Connected(conn: ConnId, busy: BusyId, reply: Result<ConnectOutput, AppError>)
    | Expanded(conn: ConnId, node: T.NodeRef, busy: BusyId, children: Result<T.Children, AppError>)
    | Previewed(rel: Relation, page: PageRequest, busy: BusyId, rows: Result<ResultSet<Row>, AppError>)
    | Described(rel: Relation, busy: BusyId, detail: Result<string, AppError>)
    | Ran(query: QueryId, busy: BusyId, output: Result<RunOutput, AppError>)
    | Estimated(query: QueryId, busy: BusyId, estimate: Result<A.Estimate, AppError>)
    | Searched(busy: BusyId, terms: string, entries: Result<seq<string>, AppError>)
    | LibraryAnswered(busy: BusyId, wrote: Option<string>, list: Result<seq<string>, AppError>)
    | Recorded(query: QueryId, written: Result<RowId, AppError>)

  function Answered<V>(r: Result<V, AppError>): LoadState<V> {
    match r case Success(v) => Ready(v) case Failure(e) => Failed(Message(e))
  }

  function OnConnected(s: State, c: ConnId, reply: Result<ConnectOutput, AppError>): State {
    match reply
    case Success(out) =>
      if c in s.conns && s.conns[c].status == Connecting then
        var tree := T.SetRoots(out.roots);
        s.(conns := s.conns[c := s.conns[c].(status := Open, session := Some(out.session), access := out.access,
                                             tree := tree, view := T.Flatten(tree, c))])
      else s.(outside := s.outside.(closed := s.outside.closed + [out.session.id]))
    case Failure(e) =>
      if c in s.conns then s.(conns := s.conns[c := s.conns[c].(status := Broken(Message(e)))]) else s
  }

  function SessionDied(s: State, c: ConnId): State {
    if c !in s.conns || s.conns[c].status == Closed then s
    else
      s.(conns := s.conns[c := s.conns[c].(session := None, status := Broken(SESSION_CLOSED))],
         outside := if s.conns[c].session.Some?
                    then s.outside.(lost := s.outside.lost + [s.conns[c].session.value.id]) else s.outside)
  }

  function OnExpanded(s: State, c: ConnId, node: T.NodeRef, children: Result<T.Children, AppError>): State {
    var outcome := match children case Success(v) => Success(v) case Failure(e) => Failure(Message(e));
    var finished := if c in s.conns then WithTree(s, c, T.FinishLoad(s.conns[c].tree, node, outcome)) else s;
    if children == Failure(SessionClosed) then SessionDied(finished, c) else finished
  }

  const MAX_U64: nat := 0xFFFF_FFFF_FFFF_FFFF

  /** One past the last row received. */
  function Reached(page: PageRequest, rows: nat): nat {
    if page.offset + rows > MAX_U64 then MAX_U64 else page.offset + rows
  }

  /** A short page is the end, unless the driver knows there is more. */
  function IsEnd(page: PageRequest, result: ResultSet<Row>): bool {
    |result.rows| < page.limit && (result.total.None? || Reached(page, |result.rows|) >= result.total.value)
  }

  const CHANGED_SHAPE := "changed shape; showing the new page only"

  function Landed(p: Preview, append: bool, page: PageRequest, result: ResultSet<Row>): Preview {
    var merged := if append && p.data.Ready? then Append(p.data.value, result) else Some(New(result));
    var rows := if merged.Some? then merged.value else New(result);
    p.(pending := None,
       attempts := p.attempts + 1,
       lastError := if merged.Some? then None else Some(CHANGED_SHAPE),
       exhausted := IsEnd(page, result),
       page := page,
       nextOffset := Reached(page, |result.rows|),
       columns := Some(|rows.columns|),
       loadedRows := rows.rows,
       data := Ready(rows))
  }

  function NotLanded(p: Preview, append: bool, why: string): Preview {
    if append && p.data.Ready? then p.(pending := None, attempts := p.attempts + 1, lastError := Some(why))
    else p.(pending := None, attempts := p.attempts + 1, data := Failed(why), loadedRows := 0, lastError := None)
  }

  /** The preview is waiting for that very page. */
  predicate Awaited(s: State, rel: Relation, page: PageRequest) {
    rel in s.previews && s.previews[rel].pending.Some? && s.previews[rel].pending.value.page == page
  }

  /** The preview takes what came for the page it waits for, and nothing else. */
  function Told(s: State, rel: Relation, page: PageRequest, rows: Result<ResultSet<Row>, AppError>): State {
    if !Awaited(s, rel, page) then s
    else
      var p := s.previews[rel];
      var append := p.pending.value.append;
      s.(previews := s.previews[rel := if rows.Success? then Landed(p, append, page, rows.value)
                                       else NotLanded(p, append, Message(rows.error))])
  }

  function OnPreviewed(s: State, rel: Relation, page: PageRequest, rows: Result<ResultSet<Row>, AppError>): State {
    var told := Told(s, rel, page, rows);
    if Awaited(s, rel, page) && rows == Failure(SessionClosed) then SessionDied(told, rel.conn) else told
  }

  function OnDescribed(s: State, rel: Relation, detail: Result<string, AppError>): State {
    if rel in s.definitions then s.(definitions := s.definitions[rel := Answered(detail)]) else s
  }

  const OVER_THE_BUDGET := "over the budget"

  /** What a query says of a reply to its run. */
  function Heard(query: Query, output: Result<RunOutput, AppError>): Query {
    match output
    case Success(RanRows(result)) => query.(data := Ready(New(result)))
    case Success(AskFirst(over)) => query.(data := Idle, needsApproval := Some(over))
    case Failure(e) => query.(data := Failed(Message(e)))
  }

  function OutcomeOf(output: Result<RunOutput, AppError>): RunOutcome {
    match output
    case Success(RanRows(result)) => RunOk(|result.rows|)
    case Success(AskFirst(_)) => RunRefused(OVER_THE_BUDGET)
    case Failure(e) => RunFailed(Message(e))
  }

  function OnRan(s: State, q: QueryId, output: Result<RunOutput, AppError>): State {
    if q !in s.queries then s
    else RecordEnd(s.(queries := s.queries[q := Heard(s.queries[q], output)]), q, OutcomeOf(output))
  }

  function OnEstimated(s: State, q: QueryId, estimate: Result<A.Estimate, AppError>): State {
    if q !in s.queries then s
    else
      var data := if estimate.Success? then Idle else Failed(Message(estimate.error));
      s.(queries := s.queries[q := s.queries[q].(data := data)])
  }

  function OnSearched(s: State, terms: string, entries: Result<seq<string>, AppError>): State {
    if s.history.terms != terms then s else s.(history := s.history.(data := Answered(entries)))
  }

  function OnRecorded(s: State, q: QueryId, written: Result<RowId, AppError>): State {
    var taken := s.(runs := s.runs - {q});
    if written.Failure? || q !in s.runs then taken
    else
      match s.runs[q]
      case Starting(Some(outcome)) => Settle(taken, written.value, outcome)
      case Starting(None) => s.(runs := s.runs[q := Written(written.value)])
      case Written(_) => taken
  }

  function Handle(s: State, e: Event): State {
    match e
    case Connected(c, busy, reply) => OnConnected(Drop(s, busy), c, reply)
    case Expanded(c, node, busy, children) => OnExpanded(Drop(s, busy), c, node, children)
    case Previewed(rel, page, busy, rows) => OnPreviewed(Drop(s, busy), rel, page, rows)
    case Described(rel, busy, detail) => OnDescribed(Drop(s, busy), rel, detail)
    case Ran(q, busy, output) => OnRan(Drop(s, busy), q, output)
    case Estimated(q, busy, estimate) => OnEstimated(Drop(s, busy), q, estimate)
    case Searched(busy, terms, entries) => OnSearched(Drop(s, busy), terms, entries)
    case LibraryAnswered(busy, wrote, list) => Drop(s, busy).(templates := Templates(Answered(list), wrote))
    case Recorded(q, written) => OnRecorded(s, q, written)
  }

  /** The reply is a reply to that task. */
  predicate Fits(e: Event, t: Task) {
    match e
    case Connected(c, _, _) => t == Connect(c)
    case Expanded(c, node, _, _) => t == ExpandNode(c, node)
    case Previewed(rel, page, _, _) => t == FetchPage(rel, page)
    case Described(rel, _, _) => t == DescribeTable(rel)
    case Ran(q, _, output) =>
      t == Run(q) || (t.RunOver? && t.query == q && !(output.Success? && output.value.AskFirst?))
    case Estimated(q, _, _) => t == Estimating(q)
    case Searched(_, terms, _) => t == Searching(terms)
    case LibraryAnswered(_, _, _) => t == Library
    case Recorded(_, _) => false
  }
}
