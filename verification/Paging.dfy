/**
 Previews over whole runs: what a preview shows is an initial part of the
 relation, with no row missing and none twice, and paging reaches the end.
 */
module Paging {
  import opened Wrappers
  import opened Pages
  import opened Store
  import opened Runs
  import opened Rows
  import opened Frames

  /**
   What the relations hold, under each ordering, while nobody changes them; and
   whether the driver is generous: it answers with something while there is
   something, and cuts a page short only at the end or where it says how much
   there is.
   */
  datatype Database =
    Database(rows: (Relation, Option<Sort>) -> seq<Row>, columns: Relation -> seq<string>, generous: bool)

  /** The rows a page asks for. */
  function Window(all: seq<Row>, page: PageRequest): seq<Row> {
    if page.offset >= |all| then []
    else if page.offset + page.limit >= |all| then all[page.offset..]
    else all[page.offset..page.offset + page.limit]
  }

  /** A driver may answer a page short, but with its first rows. */
  predicate Honest(db: Database, rel: Relation, page: PageRequest, result: ResultSet<Row>) {
    && |db.rows(rel, page.sort)| <= MAX_U64
    && result.columns == db.columns(rel)
    && result.rows <= Window(db.rows(rel, page.sort), page)
    && (db.generous ==> Generous(db.rows(rel, page.sort), page, result))
  }

  predicate Generous(all: seq<Row>, page: PageRequest, result: ResultSet<Row>) {
    && (page.offset < |all| && page.limit > 0 ==> result.rows != [])
    && (result.total.Some? ==> result.total.value == |all|)
    && (result.total.None? && |result.rows| < page.limit ==> page.offset + |result.rows| >= |all|)
  }

  /** A preview shows the first rows of its relation, and is waiting for the rows after them. */
  predicate Faithful(db: Database, rel: Relation, p: Preview) {
    && (if p.data.Ready?
        then p.page.sort == p.sort && p.loadedRows == p.nextOffset && Shows(db, rel, p.sort, p.data.value, p.nextOffset)
        else p.nextOffset == 0 && p.loadedRows == 0 && !p.exhausted)
    && p.page.limit >= 1
    && (p.pending.Some? ==> Waits(p))
    && (db.generous && p.exhausted ==> p.nextOffset == |db.rows(rel, p.sort)|)
  }

  /** Exactly the first rows of the relation, as far as `upTo`. */
  predicate Shows(db: Database, rel: Relation, sort: Option<Sort>, held: Paged<Row>, upTo: nat) {
    var all := db.rows(rel, sort);
    && upTo <= |all|
    && Pages.Rows(held) == all[..upTo]
    && held.columns == db.columns(rel)
    && Sound(held)
  }

  predicate Waits(p: Preview)
    requires p.pending.Some?
  {
    var pending := p.pending.value;
    && pending.page.sort == p.sort
    && pending.page.offset == p.nextOffset
    && pending.page.limit >= 1
    && !p.exhausted
    && (if pending.append then p.data.Ready? else p.data.Loading?)
  }

  predicate AllFaithful(db: Database, s: State) {
    forall rel :: rel in s.previews ==> Faithful(db, rel, s.previews[rel])
  }

  // ── a page lands ────────────────────────────────────────────────────────

  lemma WindowIsNext(all: seq<Row>, page: PageRequest, rows: seq<Row>)
    requires rows <= Window(all, page) && page.offset <= |all|
    ensures page.offset + |rows| <= |all| && all[..page.offset] + rows == all[..page.offset + |rows|]
  {
  }

  /** A page that says it is the last is. */
  lemma EndIsTheEnd(all: seq<Row>, page: PageRequest, result: ResultSet<Row>)
    requires |all| <= MAX_U64 && page.offset + |result.rows| <= |all| && Generous(all, page, result)
    ensures Reached(page, |result.rows|) == page.offset + |result.rows|
    ensures IsEnd(page, result) ==> page.offset + |result.rows| == |all|
    ensures page.limit >= 1 && result.rows == [] ==> IsEnd(page, result)
  {
  }

  lemma NewLands(db: Database, rel: Relation, p: Preview, page: PageRequest, result: ResultSet<Row>)
    requires Faithful(db, rel, p) && p.pending.Some? && p.pending.value.page == page && !p.pending.value.append
    requires Honest(db, rel, page, result)
    ensures Faithful(db, rel, Landed(p, false, page, result))
  {
    hide Window, IsEnd, Generous;
    NewIsSound(result);
    WindowIsNext(db.rows(rel, page.sort), page, result.rows);
    if db.generous {
      EndIsTheEnd(db.rows(rel, page.sort), page, result);
    }
    assert db.rows(rel, page.sort)[..0] == [];
  }

  lemma MoreLands(db: Database, rel: Relation, p: Preview, page: PageRequest, result: ResultSet<Row>)
    requires Faithful(db, rel, p) && p.pending.Some? && p.pending.value.page == page && p.pending.value.append
    requires Honest(db, rel, page, result)
    ensures Faithful(db, rel, Landed(p, true, page, result))
    ensures Landed(p, true, page, result).data.Ready?
  {
    hide Window, IsEnd, Flat, Generous;
    var held := p.data.value;
    assert Append(held, result).Some?;
    AppendIsConcat(held, result);
    WindowIsNext(db.rows(rel, page.sort), page, result.rows);
    if db.generous {
      EndIsTheEnd(db.rows(rel, page.sort), page, result);
    }
  }

  lemma NothingLands(db: Database, rel: Relation, p: Preview, why: string)
    requires Faithful(db, rel, p) && p.pending.Some?
    ensures Faithful(db, rel, NotLanded(p, p.pending.value.append, why))
  {
    hide Shows;
  }

  // ── one step ────────────────────────────────────────────────────────────

  lemma TouchedIsFaithful(db: Database, s: State, s': State, o: Owner)
    requires AllFaithful(db, s) && Touches(s, s', o)
    requires o.OfPreview? && o.rel in s'.previews ==> Faithful(db, o.rel, s'.previews[o.rel])
    ensures AllFaithful(db, s')
  {
    hide Faithful;
  }

  lemma FetchIsFaithful(db: Database, s: State, rel: Relation, page: PageRequest, append: bool)
    requires rel in s.previews && SessionOf(s, rel.conn).Some?
    requires var p := s.previews[rel];
             Faithful(db, rel, p.(pending := None)) && Waits(p.(pending := Some(PendingPage(0, page, append))))
    ensures Faithful(db, rel, Fetch(s, rel, page, append).previews[rel])
  {
    hide Except, Shows;
  }

  /** A preview that starts over, with whatever ordering it has. */
  lemma StartingIsFaithful(db: Database, s: State, rel: Relation, p: Preview)
    requires AllFaithful(db, s) && s.pageSize >= 1 && SessionOf(s, rel.conn).Some?
    requires p.nextOffset == 0 && p.loadedRows == 0 && p.data.Loading? && !p.exhausted && p.page.limit >= 1
    ensures var s' := Fetch(s.(previews := s.previews[rel := p]), rel, FirstPage(s, p.sort), false);
            AllFaithful(db, s')
  {
    hide Touches, Fetch, Shows;
    var first := s.(previews := s.previews[rel := p]);
    PreviewTouches(s, rel, p);
    FetchTouches(s, first, rel, FirstPage(s, p.sort), false);
    FetchIsFaithful(db, first, rel, FirstPage(s, p.sort), false);
    TouchedIsFaithful(db, s, Fetch(first, rel, FirstPage(s, p.sort), false), OfPreview(rel));
  }

  lemma PreviewIsFaithful(db: Database, s: State, rel: Relation)
    requires AllFaithful(db, s) && s.pageSize >= 1
    ensures AllFaithful(db, PreviewTable(s, rel))
  {
    hide Fetch, AllFaithful;
    if rel.table != [] && SessionOf(s, rel.conn).Some? && (rel in s.previews ==> s.previews[rel].data.Failed?) {
      var page := FirstPage(s, if rel in s.previews then s.previews[rel].sort else None);
      var p := if rel in s.previews
               then s.previews[rel].(page := page, nextOffset := 0, data := Loading, loadedRows := 0,
                                     exhausted := false)
               else NewPreview(page);
      StartingIsFaithful(db, s, rel, p);
    }
  }

  lemma SortIsFaithful(db: Database, s: State, rel: Relation, column: nat)
    requires AllFaithful(db, s) && s.pageSize >= 1
    ensures AllFaithful(db, SortPreview(s, rel, column))
  {
    hide Fetch, NextSort, Faithful;
    if SessionOf(s, rel.conn).Some? && rel in s.previews {
      var sort := Some(NextSort(s.previews[rel], column));
      var p := s.previews[rel].(sort := sort, data := Loading, loadedRows := 0, nextOffset := 0, exhausted := false);
      HasLimit(db, rel, s.previews[rel]);
      StartingIsFaithful(db, s, rel, p);
    }
  }

  lemma HasLimit(db: Database, rel: Relation, p: Preview)
    requires Faithful(db, rel, p)
    ensures p.page.limit >= 1
  {
  }

  lemma NoMore(s: State, rel: Relation)
    requires SessionOf(s, rel.conn).None?
    ensures LoadMore(s, rel) == s
  {
  }

  lemma LoadMoreIsFaithful(db: Database, s: State, rel: Relation)
    requires AllFaithful(db, s)
    ensures AllFaithful(db, LoadMore(s, rel))
  {
    hide Touches, Fetch;
    LoadMoreTouches(s, rel);
    if SessionOf(s, rel.conn).None? {
      NoMore(s, rel);
    } else if rel in s.previews {
      var p := s.previews[rel];
      assert Faithful(db, rel, p);
      if p.pending.None? && p.data.Ready? && !p.exhausted {
        FetchIsFaithful(db, s, rel, p.page.(offset := p.nextOffset), true);
        TouchedIsFaithful(db, s, LoadMore(s, rel), OfPreview(rel));
      }
    }
  }

  lemma ForgetIsFaithful(db: Database, s: State, rel: Relation)
    requires AllFaithful(db, s)
    ensures AllFaithful(db, ForgetPreview(s, rel))
  {
    hide Touches, DropAll, Faithful;
    ForgetPreviewTouches(s, rel);
    TouchedIsFaithful(db, s, ForgetPreview(s, rel), OfPreview(rel));
  }

  lemma AbandonIsFaithful(db: Database, s: State, o: Owner, reason: string)
    requires AllFaithful(db, s)
    ensures AllFaithful(db, Abandon(s, o, reason))
  {
    hide Touches, Shows, T.Flatten, T.FinishLoad, RecordEnd, OrFailed;
    AbandonTouches(s, o, reason);
    TouchedIsFaithful(db, s, Abandon(s, o, reason), o);
  }

  lemma CancelIsFaithful(db: Database, s: State, id: BusyId)
    requires AllFaithful(db, s)
    ensures AllFaithful(db, Cancel(s, id))
  {
    hide Faithful, Abandon, DropAll, RowOf;
    DropShows(s, {id});
    if RowOf(s.busy, id).Some? {
      AbandonIsFaithful(db, Drop(s, id), RowOf(s.busy, id).value.owner, CANCELLED);
    }
  }

  lemma DisconnectIsFaithful(db: Database, s: State, c: ConnId)
    requires AllFaithful(db, s)
    ensures AllFaithful(db, Disconnect(s, c))
  {
    hide Faithful, Disconnect, Orphans, Named, SameBut;
    DisconnectShows(s, c);
  }

  lemma ApplyIsFaithful(db: Database, s: State, a: Action, issuer: Issuer)
    requires AllFaithful(db, s) && s.pageSize >= 1
    ensures AllFaithful(db, Apply(s, a, issuer))
  {
    hide Disconnect, PreviewTable, SortPreview, LoadMore, ForgetPreview, Cancel, Faithful, Touches, Apply;
    Applied(s, a, issuer);
    match a {
      case DoDisconnect(c) => DisconnectIsFaithful(db, s, c);
      case DoCancel(id) => CancelIsFaithful(db, s, id);
      case DoPreview(rel) => PreviewIsFaithful(db, s, rel);
      case DoSort(rel, column) => SortIsFaithful(db, s, rel, column);
      case DoLoadMore(rel) => LoadMoreIsFaithful(db, s, rel);
      case DoForgetPreview(rel) => ForgetIsFaithful(db, s, rel);
      case _ =>
        ApplyTouches(s, a, issuer);
        TouchedIsFaithful(db, s, Apply(s, a, issuer), Subject(s, a));
    }
  }

  // ── events ──────────────────────────────────────────────────────────────

  /** A page that came, came from the relation. */
  predicate HonestEvent(db: Database, e: Event) {
    e.Previewed? && e.rows.Success? ==> Honest(db, e.rel, e.page, e.rows.value)
  }

  /** Comparing replies by their page is enough: any reply for the page awaited carries its rows. */
  lemma ToldIsFaithful(db: Database, s: State, rel: Relation, page: PageRequest, rows: Result<ResultSet<Row>, AppError>)
    requires AllFaithful(db, s) && (rows.Success? ==> Honest(db, rel, page, rows.value))
    ensures AllFaithful(db, Told(s, rel, page, rows))
  {
    hide Touches, Faithful, Landed, NotLanded, Honest, Message;
    ToldTouches(s, rel, page, rows);
    if Awaited(s, rel, page) {
      var p := s.previews[rel];
      if rows.Failure? {
        NothingLands(db, rel, p, Message(rows.error));
      } else if p.pending.value.append {
        MoreLands(db, rel, p, page, rows.value);
      } else {
        NewLands(db, rel, p, page, rows.value);
      }
    }
    TouchedIsFaithful(db, s, Told(s, rel, page, rows), OfPreview(rel));
  }

  lemma SamePreviewsAreFaithful(db: Database, s: State, s': State)
    requires AllFaithful(db, s) && s'.previews == s.previews
    ensures AllFaithful(db, s')
  {
    hide Faithful;
  }

  lemma PreviewedIsFaithful(db: Database, s: State, e: Event)
    requires AllFaithful(db, s) && e.Previewed? && HonestEvent(db, e)
    ensures AllFaithful(db, Handle(s, e))
  {
    hide AllFaithful, DropAll, Told, Honest, SessionDied, Awaited;
    var dropped := Drop(s, e.busy);
    var told := Told(dropped, e.rel, e.page, e.rows);
    DropShows(s, {e.busy});
    SamePreviewsAreFaithful(db, s, dropped);
    ToldIsFaithful(db, dropped, e.rel, e.page, e.rows);
    SessionDiedPreviews(told, e.rel.conn);
    SamePreviewsAreFaithful(db, told, Handle(s, e));
  }

  lemma HandleIsFaithful(db: Database, s: State, e: Event)
    requires AllFaithful(db, s) && HonestEvent(db, e)
    ensures AllFaithful(db, Handle(s, e))
  {
    hide AllFaithful, HonestEvent, Handle;
    if e.Previewed? {
      PreviewedIsFaithful(db, s, e);
    } else {
      HandleTouches(s, e);
      SamePreviewsAreFaithful(db, s, Handle(s, e));
    }
  }

  // ── in every run ────────────────────────────────────────────────────────

  predicate HonestMail(db: Database, mailbox: seq<Event>) {
    forall i :: 0 <= i < |mailbox| ==> HonestEvent(db, mailbox[i])
  }

  /** The driver answers every page with rows of that page. */
  predicate HonestRun(db: Database, steps: seq<Step>) {
    forall i :: 0 <= i < |steps| && steps[i].Completed? ==> HonestEvent(db, steps[i].reply)
  }

  lemma WiringStays(s: State, s': State, ended: set<BusyId>, begun: Option<Task>)
    requires Works(s, s', ended, begun)
    ensures s'.pageSize == s.pageSize && s'.library == s.library
  {
    hide Except;
  }

  lemma StepIsFaithful(db: Database, w: World, step: Step)
    requires AllFaithful(db, w.s) && w.s.pageSize >= 1 && HonestMail(db, w.mailbox) && Enabled(w, step)
    requires step.Completed? ==> HonestEvent(db, step.reply)
    ensures AllFaithful(db, Next(w, step).s) && Next(w, step).s.pageSize >= 1 && HonestMail(db, Next(w, step).mailbox)
  {
    hide AllFaithful, Honest, Apply, Handle, RepliesTo, Works;
    match step {
      case Acted =>
        var s := w.s.(applied := w.s.applied + 1);
        SamePreviewsAreFaithful(db, w.s, s);
        ApplyIsFaithful(db, s, w.queue[0].0, w.queue[0].1);
        var ended, begun := ApplyWorks(s, w.queue[0].0, w.queue[0].1);
        WiringStays(s, Next(w, step).s, ended, begun);
      case Received =>
        HandleIsFaithful(db, w.s, w.mailbox[0]);
        HandleWorks(w.s, w.mailbox[0]);
        WiringStays(w.s, Next(w, step).s, Ends(w.mailbox[0]), None);
      case Dispatched(_, _) =>
      case Completed(_) =>
      case RowAnswered(_, _) =>
    }
  }

  lemma {:induction false} RunIsFaithful(db: Database, w: World, steps: seq<Step>)
    requires AllFaithful(db, w.s) && w.s.pageSize >= 1 && HonestMail(db, w.mailbox)
    requires Legal(w, steps) && HonestRun(db, steps)
    ensures AllFaithful(db, After(w, steps).s) && HonestMail(db, After(w, steps).mailbox)
    ensures After(w, steps).s.pageSize >= 1
    decreases |steps|
  {
    hide AllFaithful, HonestMail, HonestEvent, Enabled, Next;
    if steps != [] {
      StepIsFaithful(db, w, steps[0]);
      RunIsFaithful(db, Next(w, steps[0]), steps[1..]);
    }
  }

  /**
   In every state of every run against a driver that answers each page with its
   first rows, a preview that shows rows shows exactly the first of its
   relation, as it is sorted: none missing, none twice.
   */
  lemma NoGapAndNoOverlap(db: Database, g: Wiring, steps: seq<Step>, rel: Relation)
    requires Legal(Begun(g), steps) && HonestRun(db, steps)
    ensures var s := After(Begun(g), steps).s;
            rel in s.previews && s.previews[rel].data.Ready? ==>
              var p := s.previews[rel];
              && p.nextOffset <= |db.rows(rel, p.sort)|
              && Pages.Rows(p.data.value) == db.rows(rel, p.sort)[..p.nextOffset]
              && p.loadedRows == p.nextOffset
  {
    hide Legal, After, Begun, HonestRun;
    BegunIsFaithful(db, g);
    RunIsFaithful(db, Begun(g), steps);
  }

  lemma BegunIsFaithful(db: Database, g: Wiring)
    ensures AllFaithful(db, Begun(g).s) && Begun(g).s.pageSize >= 1 && HonestMail(db, Begun(g).mailbox)
  {
  }

  /** When the driver is generous, a preview that says there is no more holds everything. */
  lemma ExhaustedIsEverything(db: Database, g: Wiring, steps: seq<Step>, rel: Relation)
    requires Legal(Begun(g), steps) && HonestRun(db, steps) && db.generous
    ensures var s := After(Begun(g), steps).s;
            rel in s.previews && s.previews[rel].exhausted ==>
              && s.previews[rel].data.Ready?
              && Pages.Rows(s.previews[rel].data.value) == db.rows(rel, s.previews[rel].sort)
  {
    hide Legal, After, Begun, HonestRun;
    BegunIsFaithful(db, g);
    RunIsFaithful(db, Begun(g), steps);
  }

  // ── and ends ────────────────────────────────────────────────────────────

  /** How much there may still be to ask for: the rows, and the asking after the last. */
  function Left(db: Database, rel: Relation, p: Preview): int {
    |db.rows(rel, p.sort)| - p.nextOffset + if p.exhausted then 0 else 1
  }

  /** A page that lands leaves less to ask for. */
  lemma LandingLeavesLess(db: Database, rel: Relation, p: Preview, result: ResultSet<Row>)
    requires db.generous && Faithful(db, rel, p) && p.pending.Some? && p.pending.value.append
    requires Honest(db, rel, p.pending.value.page, result)
    ensures 0 <= Left(db, rel, Landed(p, true, p.pending.value.page, result)) < Left(db, rel, p)
  {
    hide Flat, Sound, IsEnd, Generous, Append, New, Window;
    var page := p.pending.value.page;
    MoreLands(db, rel, p, page, result);
    WindowIsNext(db.rows(rel, page.sort), page, result.rows);
    EndIsTheEnd(db.rows(rel, page.sort), page, result);
  }

  /**
   In every run: when the loop takes the rows of a page that a preview is
   waiting to add, less is left to ask for, and never less than nothing.
   */
  lemma EveryPageLeavesLess(db: Database, g: Wiring, steps: seq<Step>)
    requires Legal(Begun(g), steps) && HonestRun(db, steps) && db.generous
    ensures var w := After(Begun(g), steps);
            Enabled(w, Received) && AddsRows(w.s, w.mailbox[0]) ==>
              var rel := w.mailbox[0].rel;
              && rel in Next(w, Received).s.previews
              && 0 <= Left(db, rel, Next(w, Received).s.previews[rel]) < Left(db, rel, w.s.previews[rel])
  {
    hide Legal, After, Begun, HonestRun, Left, AllFaithful, HonestMail, Handle;
    BegunIsFaithful(db, g);
    RunIsFaithful(db, Begun(g), steps);
    var w := After(Begun(g), steps);
    if Enabled(w, Received) && AddsRows(w.s, w.mailbox[0]) {
      FirstIsHonest(db, w.mailbox);
      AddingLeavesLess(db, w.s, w.mailbox[0]);
    }
  }

  lemma FirstIsHonest(db: Database, mailbox: seq<Event>)
    requires HonestMail(db, mailbox) && mailbox != []
    ensures HonestEvent(db, mailbox[0])
  {
    hide HonestEvent;
  }

  /** Rows a preview is waiting to add. */
  predicate AddsRows(s: State, e: Event) {
    e.Previewed? && e.rows.Success? && Awaited(s, e.rel, e.page) && s.previews[e.rel].pending.value.append
  }

  lemma AddingLeavesLess(db: Database, s: State, e: Event)
    requires AllFaithful(db, s) && db.generous && HonestEvent(db, e) && AddsRows(s, e)
    ensures e.rel in Handle(s, e).previews
    ensures 0 <= Left(db, e.rel, Handle(s, e).previews[e.rel]) < Left(db, e.rel, s.previews[e.rel])
  {
    hide Left, Honest, DropAll, Landed, Faithful, SessionDied;
    var dropped := Drop(s, e.busy);
    DropShows(s, {e.busy});
    SessionDiedPreviews(Told(dropped, e.rel, e.page, e.rows), e.rel.conn);
    LandingLeavesLess(db, e.rel, s.previews[e.rel], e.rows.value);
  }

  // ── over whole runs ─────────────────────────────────────────────────────

  /** How far a preview has got is what it was. */
  predicate SamePlace(p: Preview, p': Preview) {
    p'.sort == p.sort && p'.nextOffset == p.nextOffset && p'.exhausted == p.exhausted
  }

  /** It is still there, as far as it was. */
  predicate KeepsPlace(s: State, s': State, rel: Relation) {
    rel in s.previews && rel in s'.previews ==> SamePlace(s.previews[rel], s'.previews[rel])
  }

  lemma TouchedKeepsPlace(s: State, s': State, o: Owner, rel: Relation)
    requires Touches(s, s', o) && o != OfPreview(rel)
    ensures KeepsPlace(s, s', rel)
  {
  }

  lemma FetchKeepsPlace(s: State, rel: Relation, page: PageRequest, append: bool)
    ensures KeepsPlace(s, Fetch(s, rel, page, append), rel)
  {
    hide Except;
  }

  /** A retry starts where a failed preview is: at the first row. */
  lemma RetryKeepsPlace(db: Database, s: State, rel: Relation)
    requires AllFaithful(db, s)
    ensures KeepsPlace(s, PreviewTable(s, rel), rel)
  {
    hide Fetch, Shows;
    if rel in s.previews {
      assert Faithful(db, rel, s.previews[rel]);
      var p := s.previews[rel];
      var page := FirstPage(s, p.sort);
      FetchKeepsPlace(s.(previews := s.previews[rel :=
                        p.(page := page, nextOffset := 0, data := Loading, loadedRows := 0, exhausted := false)]),
                        rel, page, false);
    }
  }

  lemma MoreKeepsPlace(s: State, rel: Relation)
    ensures KeepsPlace(s, LoadMore(s, rel), rel) && KeepsPlace(s, ForgetPreview(s, rel), rel)
  {
    hide Fetch, DropAll;
    if rel in s.previews {
      FetchKeepsPlace(s, rel, s.previews[rel].page.(offset := s.previews[rel].nextOffset), true);
    }
  }

  lemma CancelKeepsPlace(s: State, id: BusyId, rel: Relation)
    ensures KeepsPlace(s, Cancel(s, id), rel)
  {
    hide DropAll, RowOf, Abandon, Touches;
    DropShows(s, {id});
    CancelTouches(s, id);
    if Subject(s, DoCancel(id)) == OfPreview(rel) {
      AbandonKeepsPlace(Drop(s, id), rel);
    } else {
      TouchedKeepsPlace(s, Cancel(s, id), Subject(s, DoCancel(id)), rel);
    }
  }

  lemma AbandonKeepsPlace(s: State, rel: Relation)
    ensures KeepsPlace(s, Abandon(s, OfPreview(rel), CANCELLED), rel)
  {
  }

  lemma DisconnectKeepsPlace(s: State, c: ConnId, rel: Relation)
    ensures KeepsPlace(s, Disconnect(s, c), rel)
  {
    hide Disconnect, Orphans, Named, SameBut;
    DisconnectShows(s, c);
  }

  /** No action but ordering it anew changes how far a preview has got. */
  lemma ApplyKeepsPlace(db: Database, s: State, a: Action, issuer: Issuer, rel: Relation)
    requires AllFaithful(db, s) && !(a.DoSort? && a.rel == rel)
    ensures KeepsPlace(s, Apply(s, a, issuer), rel)
  {
    hide Disconnect, PreviewTable, LoadMore, ForgetPreview, Cancel, Touches, Apply, RowOf, KeepsPlace, AllFaithful;
    Applied(s, a, issuer);
    if a.DoDisconnect? {
      DisconnectKeepsPlace(s, a.conn, rel);
    } else if a.DoCancel? {
      CancelKeepsPlace(s, a.id, rel);
    } else {
      ApplyTouches(s, a, issuer);
      if Subject(s, a) != OfPreview(rel) {
        TouchedKeepsPlace(s, Apply(s, a, issuer), Subject(s, a), rel);
      } else {
        RetryKeepsPlace(db, s, rel);
        MoreKeepsPlace(s, rel);
      }
    }
  }

  /** The rows of one more page were added to this preview. */
  predicate Adds(w: World, step: Step, rel: Relation)
    requires Enabled(w, step)
  {
    step.Received? && AddsRows(w.s, w.mailbox[0]) && w.mailbox[0].rel == rel
  }

  /** There is no less than nothing left, and no more than there was. */
  predicate LeavesNoMore(db: Database, s: State, s': State, rel: Relation) {
    rel in s.previews && rel in s'.previews ==>
      && s'.previews[rel].sort == s.previews[rel].sort
      && Left(db, rel, s'.previews[rel]) <= Left(db, rel, s.previews[rel])
  }

  lemma LeftIsSomething(db: Database, s: State, rel: Relation)
    requires AllFaithful(db, s) && db.generous && rel in s.previews
    ensures 0 <= Left(db, rel, s.previews[rel])
    ensures Left(db, rel, s.previews[rel]) == 0 ==> s.previews[rel].exhausted
  {
    assert Faithful(db, rel, s.previews[rel]);
  }

  lemma PlaceLeavesNoMore(db: Database, s: State, s': State, rel: Relation)
    requires KeepsPlace(s, s', rel)
    ensures LeavesNoMore(db, s, s', rel)
  {
  }

  lemma LandedLeavesNoMore(db: Database, rel: Relation, p: Preview, result: ResultSet<Row>)
    requires Faithful(db, rel, p) && p.pending.Some? && Honest(db, rel, p.pending.value.page, result)
    ensures var p' := Landed(p, p.pending.value.append, p.pending.value.page, result);
            p'.sort == p.sort && Left(db, rel, p') <= Left(db, rel, p)
  {
    hide Append, New, Window, Generous, IsEnd, Flat, Sound;
    WindowIsNext(db.rows(rel, p.sort), p.pending.value.page, result.rows);
  }

  lemma NotLandedKeepsPlace(p: Preview, append: bool, why: string)
    ensures SamePlace(p, NotLanded(p, append, why))
  {
  }

  lemma SamePlaceLeavesNoMore(db: Database, rel: Relation, p: Preview, p': Preview)
    requires SamePlace(p, p')
    ensures p'.sort == p.sort && Left(db, rel, p') == Left(db, rel, p)
  {
  }

  /** What telling a preview makes of it. */
  lemma ToldShowsIt(s: State, rel: Relation, page: PageRequest, rows: Result<ResultSet<Row>, AppError>)
    requires Awaited(s, rel, page)
    ensures var p, s' := s.previews[rel], Told(s, rel, page, rows);
            && rel in s'.previews
            && s'.previews[rel] == (if rows.Success? then Landed(p, p.pending.value.append, page, rows.value)
                                    else NotLanded(p, p.pending.value.append, Message(rows.error)))
            && forall other :: other != rel && other in s'.previews ==>
                 other in s.previews && s'.previews[other] == s.previews[other]
  {
    hide Landed, NotLanded, Message;
  }

  lemma NotTold(s: State, rel: Relation, page: PageRequest, rows: Result<ResultSet<Row>, AppError>)
    requires !Awaited(s, rel, page)
    ensures Told(s, rel, page, rows) == s
  {
  }

  /** A page that is added, or is the first, or failed. */
  lemma ToldLeavesNoMore(db: Database, s: State, e: Event, rel: Relation)
    requires AllFaithful(db, s) && e.Previewed? && HonestEvent(db, e)
    ensures LeavesNoMore(db, s, Told(s, e.rel, e.page, e.rows), rel)
  {
    hide Landed, NotLanded, Message, Faithful, Honest, Left, Told, SamePlace;
    if Awaited(s, e.rel, e.page) {
      ToldShowsIt(s, e.rel, e.page, e.rows);
      var p := s.previews[e.rel];
      if e.rows.Success? {
        LandedLeavesNoMore(db, e.rel, p, e.rows.value);
      } else {
        var why := Message(e.rows.error);
        NotLandedKeepsPlace(p, p.pending.value.append, why);
        SamePlaceLeavesNoMore(db, e.rel, p, NotLanded(p, p.pending.value.append, why));
      }
    } else {
      NotTold(s, e.rel, e.page, e.rows);
    }
  }

  lemma HandleLeavesNoMore(db: Database, s: State, e: Event, rel: Relation)
    requires AllFaithful(db, s) && HonestEvent(db, e)
    ensures LeavesNoMore(db, s, Handle(s, e), rel)
  {
    hide AllFaithful, HonestEvent, Handle, Told, SessionDied, DropAll, Touches, LeavesNoMore, Left;
    if e.Previewed? {
      var dropped := Drop(s, e.busy);
      var told := Told(dropped, e.rel, e.page, e.rows);
      DropShows(s, {e.busy});
      SamePreviewsAreFaithful(db, s, dropped);
      ToldLeavesNoMore(db, dropped, e, rel);
      PreviewedTouches(s, e);
      SessionDiedPreviews(told, e.rel.conn);
      SamePreviewsLeave(db, dropped, told, s, Handle(s, e), rel);
    } else {
      HandleTouches(s, e);
      TouchedKeepsPlace(s, Handle(s, e), About(e), rel);
      PlaceLeavesNoMore(db, s, Handle(s, e), rel);
    }
  }

  lemma SamePreviewsLeave(db: Database, s: State, s': State, t: State, t': State, rel: Relation)
    requires LeavesNoMore(db, s, s', rel) && t.previews == s.previews && t'.previews == s'.previews
    ensures LeavesNoMore(db, t, t', rel)
  {
  }

  /** Nobody orders the preview anew. */
  predicate Unsorted(w: World, step: Step, rel: Relation)
    requires Enabled(w, step)
  {
    step.Acted? ==> !(w.queue[0].0.DoSort? && w.queue[0].0.rel == rel)
  }

  predicate NeverSorted(w: World, steps: seq<Step>, rel: Relation)
    requires Legal(w, steps)
    decreases |steps|
  {
    steps == [] || (Unsorted(w, steps[0], rel) && NeverSorted(Next(w, steps[0]), steps[1..], rel))
  }

  /** The pages that were added to the preview in these steps. */
  function Added(w: World, steps: seq<Step>, rel: Relation): nat
    requires Legal(w, steps)
    decreases |steps|
  {
    if steps == [] then 0
    else (if Adds(w, steps[0], rel) then 1 else 0) + Added(Next(w, steps[0]), steps[1..], rel)
  }

  lemma StepLeaves(db: Database, w: World, step: Step, rel: Relation)
    requires AllFaithful(db, w.s) && HonestMail(db, w.mailbox) && db.generous
    requires Enabled(w, step) && Unsorted(w, step, rel)
    requires rel in w.s.previews && rel in Next(w, step).s.previews
    ensures var p, p' := w.s.previews[rel], Next(w, step).s.previews[rel];
            && p'.sort == p.sort
            && Left(db, rel, p') + (if Adds(w, step, rel) then 1 else 0) <= Left(db, rel, p)
  {
    hide AllFaithful, HonestMail, HonestEvent, Apply, Handle, RepliesTo, AddsRows, Left;
    match step {
      case Acted =>
        var s := w.s.(applied := w.s.applied + 1);
        SamePreviewsAreFaithful(db, w.s, s);
        ApplyKeepsPlace(db, s, w.queue[0].0, w.queue[0].1, rel);
        PlaceLeavesNoMore(db, s, Next(w, step).s, rel);
      case Received =>
        FirstIsHonest(db, w.mailbox);
        HandleLeavesNoMore(db, w.s, w.mailbox[0], rel);
        if Adds(w, step, rel) {
          AddingLeavesLess(db, w.s, w.mailbox[0]);
        }
      case _ =>
    }
  }

  lemma {:induction false} RunLeaves(db: Database, w: World, steps: seq<Step>, rel: Relation)
    requires AllFaithful(db, w.s) && w.s.pageSize >= 1 && HonestMail(db, w.mailbox) && db.generous
    requires Legal(w, steps) && HonestRun(db, steps) && Stays(w, steps, rel) && NeverSorted(w, steps, rel)
    ensures var w' := After(w, steps);
            && AllFaithful(db, w'.s) && rel in w'.s.previews && w'.s.previews[rel].sort == w.s.previews[rel].sort
            && Left(db, rel, w'.s.previews[rel]) + Added(w, steps, rel) <= Left(db, rel, w.s.previews[rel])
    decreases |steps|
  {
    hide AllFaithful, HonestMail, HonestEvent, Enabled, Next, Adds, Unsorted, Left;
    if steps != [] {
      StaysNext(w, steps, rel);
      StepLeaves(db, w, steps[0], rel);
      StepIsFaithful(db, w, steps[0]);
      RunLeaves(db, Next(w, steps[0]), steps[1..], rel);
    }
  }

  lemma StaysNext(w: World, steps: seq<Step>, rel: Relation)
    requires Legal(w, steps) && Stays(w, steps, rel) && steps != []
    ensures rel in Next(w, steps[0]).s.previews
  {
  }

  /**
   Paging ends. From any state of any run, whatever else goes on, as long as the
   preview is not forgotten and not ordered anew: no more pages are ever added to
   it than it has rows to come, and one; and if that many are, it says that there
   is no more.
   */
  lemma PagingEnds(db: Database, g: Wiring, before: seq<Step>, later: seq<Step>, rel: Relation)
    requires Legal(Begun(g), before) && Legal(After(Begun(g), before), later)
    requires HonestRun(db, before) && HonestRun(db, later) && db.generous
    requires Stays(After(Begun(g), before), later, rel) && NeverSorted(After(Begun(g), before), later, rel)
    ensures var w := After(Begun(g), before);
            var w' := After(w, later);
            && rel in w.s.previews && rel in w'.s.previews
            && var p, p' := w.s.previews[rel], w'.s.previews[rel];
            && Added(w, later, rel) <= |db.rows(rel, p.sort)| - p.nextOffset + 1
            && p'.sort == p.sort
            && (Added(w, later, rel) == |db.rows(rel, p.sort)| - p.nextOffset + 1 ==> p'.exhausted)
  {
    hide Legal, After, Begun, HonestRun, AllFaithful, HonestMail, NeverSorted, Added;
    BegunIsFaithful(db, g);
    RunIsFaithful(db, Begun(g), before);
    RunLeaves(db, After(Begun(g), before), later, rel);
    LeftIsSomething(db, After(After(Begun(g), before), later).s, rel);
  }
}
