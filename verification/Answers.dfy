/**
 What an answer makes of the preview or query that waits for it, what a row of
 the library is told of it, and what ending, forgetting and closing leave.
 */
module Answers {
  import opened Wrappers
  import opened Pages
  import P = Pages
  import opened Store
  import opened Rows
  import opened Frames
  import opened Closing
  import opened Exchanges

  // ── previews ────────────────────────────────────────────────────────────

  /** The preview waits for that page, and holds a sound count of what it shows. */
  predicate WaitsFor(s: State, rel: Relation, page: PageRequest) {
    && rel in s.previews && s.previews[rel].pending.Some? && s.previews[rel].pending.value.page == page
    && (s.previews[rel].data.Ready? ==> Sound(s.previews[rel].data.value))
  }

  /** The new rows are to stand behind the ones shown. */
  predicate Adds(p: Preview) {
    p.pending.Some? && p.pending.value.append && p.data.Ready?
  }

  /**
   The rows shown after a page came: those there were and then the page's, when
   it is to be added and has the same columns, and otherwise the page's alone.
   There is no more if the page was short and, as far as its total says, the last.
   */
  lemma APageIsShown(s: State, rel: Relation, page: PageRequest, busy: BusyId, result: ResultSet<Row>)
    requires WaitsFor(s, rel, page)
    requires page.offset + |result.rows| <= MAX_U64
    ensures var p := s.previews[rel];
            var s' := Handle(s, Previewed(rel, page, busy, Success(result)));
            && rel in s'.previews
            && var p' := s'.previews[rel];
            && p'.data.Ready? && p'.pending.None? && p'.attempts == p.attempts + 1 && p'.sort == p.sort
            && (if Adds(p) && result.columns == p.data.value.columns
                then P.Rows(p'.data.value) == P.Rows(p.data.value) + result.rows
                else P.Rows(p'.data.value) == result.rows)
            && p'.data.value.columns == result.columns && p'.columns == Some(|result.columns|)
            && p'.loadedRows == |P.Rows(p'.data.value)|
            && p'.lastError == (if Adds(p) && result.columns != p.data.value.columns
                                then Some("changed shape; showing the new page only") else None)
            && p'.page == page && p'.nextOffset == page.offset + |result.rows|
            && (p'.exhausted <==>
                  && |result.rows| < page.limit
                  && (result.total.Some? ==> page.offset + |result.rows| >= result.total.value))
  {
    hide Handle, DropAll, Flat, Append, New;
    var e := Previewed(rel, page, busy, Success(result));
    Handled(s, e);
    DropShows(s, {busy});
    var p := s.previews[rel];
    var p' := Landed(p, p.pending.value.append, page, result);
    assert Handle(s, e) == Told(Drop(s, busy), rel, page, Success(result));
    assert Told(Drop(s, busy), rel, page, Success(result)).previews[rel] == p';
    NewIsSound(result);
    FirstPageIsItself(result, 0);
    if Adds(p) {
      AppendedExactlyWhen(p.data.value, result);
      if result.columns == p.data.value.columns { AppendIsConcat(p.data.value, result); }
    }
  }

  lemma AppendedExactlyWhen(p: Paged<Row>, more: ResultSet<Row>)
    ensures Append(p, more).Some? <==> more.columns == p.columns
  {
  }

  /** A page that failed leaves the rows it was to be added to; where there were none it is what shows. */
  lemma AFailedPageIsShown(s: State, rel: Relation, page: PageRequest, busy: BusyId, e: AppError)
    requires WaitsFor(s, rel, page)
    ensures var p := s.previews[rel];
            var s' := Handle(s, Previewed(rel, page, busy, Failure(e)));
            && rel in s'.previews
            && s'.previews[rel] ==
               (if Adds(p) then p.(pending := None, attempts := p.attempts + 1, lastError := Some(Says(e)))
                else p.(pending := None, attempts := p.attempts + 1, data := Failed(Says(e)), loadedRows := 0,
                        lastError := None))
            && (e == SessionClosed && rel.conn in s.conns && s.conns[rel.conn].status != Closed ==>
                  && rel.conn in s'.conns && s'.conns[rel.conn].session.None?
                  && s'.conns[rel.conn].status == Broken("connection is closed"))
            && (e != SessionClosed ==> s'.conns == s.conns)
  {
    hide Handle, DropAll, SessionDied, Told;
    Handled(s, Previewed(rel, page, busy, Failure(e)));
    DropShows(s, {busy});
    FailureIsTold(Drop(s, busy), rel, page, e);
    DyingShows(Told(Drop(s, busy), rel, page, Failure(e)), rel.conn);
  }

  lemma FailureIsTold(s: State, rel: Relation, page: PageRequest, e: AppError)
    requires Awaited(s, rel, page)
    ensures var p := s.previews[rel];
            var s' := Told(s, rel, page, Failure(e));
            && s'.conns == s.conns && rel in s'.previews
            && s'.previews[rel] ==
               (if Adds(p) then p.(pending := None, attempts := p.attempts + 1, lastError := Some(Says(e)))
                else p.(pending := None, attempts := p.attempts + 1, data := Failed(Says(e)), loadedRows := 0,
                        lastError := None))
  {
  }

  lemma DyingShows(s: State, c: ConnId)
    ensures var s' := SessionDied(s, c);
            && s'.previews == s.previews
            && (c in s.conns && s.conns[c].status != Closed ==>
                  && c in s'.conns && s'.conns[c].session.None?
                  && s'.conns[c].status == Broken("connection is closed"))
  {
    if c in s.conns && s.conns[c].status != Closed {
      var gone := s.conns[c].(session := None, status := Broken(SESSION_CLOSED));
      assert SessionDied(s, c).conns == s.conns[c := gone];
    }
  }

  // ── queries ─────────────────────────────────────────────────────────────

  /** The library is told that this run began, under the statement and the connection it is of. */
  predicate Records(s: State, s': State, run: RunStart) {
    if s.library then
      && s'.outside.started == s.outside.started + [run]
      && run.query in s'.runs && s'.runs[run.query] == Starting(None)
    else s'.outside.started == s.outside.started && s'.runs == s.runs
  }

  lemma BegunIsRecorded(s: State, first: State, q: QueryId, c: ConnId, sql: string, issuer: Issuer, task: Task)
    requires first.outside == s.outside && first.nextId == s.nextId && first.runs == s.runs
    requires first.library == s.library && c in first.conns
    ensures var s' := Begin(RecordStart(first, q, c, sql, issuer), task);
            Asks(s, s', task) && Records(s, s', RunStart(q, c, sql, issuer)) && s'.queries == first.queries
  {
    hide Begin, Asks;
    var recorded := RecordStart(first, q, c, sql, issuer);
    BeginAsks(s, recorded, task);
    BeginShows(recorded, task);
  }

  lemma ARun(s: State, c: ConnId, q: QueryId, sql: string, issuer: Issuer)
    requires SessionOf(s, c).Some? && q !in s.queries
    ensures var s' := Apply(s, DoRun(c, q, sql), issuer);
            && Asks(s, s', Run(q)) && Records(s, s', RunStart(q, c, sql, issuer))
            && q in s'.queries && s'.queries[q] == Query(c, sql, None, Loading)
  {
    hide Begin, Asks, RecordStart;
    var first := s.(queries := s.queries[q := Query(c, sql, None, Loading)]);
    BegunIsRecorded(s, first, q, c, sql, issuer, Run(q));
  }

  /** Costing a statement leaves no run behind. */
  lemma AnEstimate(s: State, c: ConnId, q: QueryId, sql: string, issuer: Issuer)
    requires SessionOf(s, c).Some? && q !in s.queries
    ensures var s' := Apply(s, DoEstimate(c, q, sql), issuer);
            && Asks(s, s', Estimating(q)) && s'.outside.started == s.outside.started && s'.runs == s.runs
            && q in s'.queries && s'.queries[q] == Query(c, sql, None, Loading)
  {
    hide Begin, Asks;
    var first := s.(queries := s.queries[q := Query(c, sql, None, Loading)]);
    BeginAsks(s, first, Estimating(q));
    BeginShows(first, Estimating(q));
  }

  /** An id in use, or a connection without a session, starts nothing. */
  lemma NothingToRun(s: State, c: ConnId, q: QueryId, sql: string, issuer: Issuer)
    requires SessionOf(s, c).None? || q in s.queries
    ensures Apply(s, DoRun(c, q, sql), issuer) == s && Apply(s, DoEstimate(c, q, sql), issuer) == s
  {
  }

  /** A yes runs the statement that was asked about, over what it was asked about, and answers the question. */
  lemma AYes(s: State, q: QueryId, issuer: Issuer)
    ensures var s' := Apply(s, DoApprove(q), issuer);
            if q in s.queries && SessionOf(s, s.queries[q].conn).Some? && s.queries[q].needsApproval.Some? then
              && Asks(s, s', RunOver(q, s.queries[q].needsApproval.value))
              && Records(s, s', RunStart(q, s.queries[q].conn, s.queries[q].sql, issuer))
              && q in s'.queries && s'.queries[q] == Query(s.queries[q].conn, s.queries[q].sql, None, Loading)
            else s' == s
  {
    hide Begin, Asks, RecordStart;
    if q in s.queries && SessionOf(s, s.queries[q].conn).Some? && s.queries[q].needsApproval.Some? {
      var query := s.queries[q];
      var first := s.(queries := s.queries[q := query.(needsApproval := None, data := Loading)]);
      BegunIsRecorded(s, first, q, query.conn, query.sql, issuer, RunOver(q, query.needsApproval.value));
    }
  }

  /** What a query shows of the answer to its run, and what the row of that run is told of it. */
  lemma ARunIsShown(s: State, q: QueryId, busy: BusyId, output: Result<RunOutput, AppError>)
    requires q in s.queries
    ensures var s' := Handle(s, Ran(q, busy, output));
            var was := s.queries[q];
            && q in s'.queries
            && var now := s'.queries[q];
            && now.conn == was.conn && now.sql == was.sql
            && match output
               case Success(RanRows(result)) =>
                 && now.data.Ready? && P.Rows(now.data.value) == result.rows && now.data.value.columns == result.columns
                 && now.needsApproval == was.needsApproval
               case Success(AskFirst(over)) => now.data == Idle && now.needsApproval == Some(over)
               case Failure(e) => now.data == Failed(Says(e)) && now.needsApproval == was.needsApproval
  {
    hide RecordEnd, DropAll, Flat;
    DropShows(s, {busy});
    var heard := Drop(s, busy).(queries := s.queries[q := Heard(s.queries[q], output)]);
    RecordEndShows(heard, q, OutcomeOf(output));
    if output.Success? && output.value.RanRows? { NewIsSound(output.value.result); }
  }

  /** The outcome a row is told: how many rows, that it was over the budget, or what went wrong. */
  function Outcome(output: Result<RunOutput, AppError>): RunOutcome {
    match output
    case Success(RanRows(result)) => RunOk(|result.rows|)
    case Success(AskFirst(_)) => RunRefused("over the budget")
    case Failure(e) => RunFailed(Says(e))
  }

  lemma ItsRowIsTold(s: State, q: QueryId, busy: BusyId, output: Result<RunOutput, AppError>)
    requires q in s.queries && s.library
    ensures TellsOf(s, Handle(s, Ran(q, busy, output)), q, Outcome(output))
  {
    hide Except;
  }

  /** A run with its row written ends in it; one whose row is being written has its outcome held for it. */
  predicate TellsOf(s: State, s': State, q: QueryId, outcome: RunOutcome) {
    if q in s.runs && s.runs[q].Written? then
      q !in s'.runs && s'.outside.settled == s.outside.settled + [(s.runs[q].row, outcome)]
    else
      && s'.outside.settled == s.outside.settled
      && (q in s'.runs <==> q in s.runs) && (q in s.runs ==> s'.runs[q] == Starting(Some(outcome)))
  }

  /** An estimate is shown by asking nothing and waiting for nothing; one that failed says why. */
  lemma AnEstimateIsShown(s: State, q: QueryId, busy: BusyId, estimate: Result<A.Estimate, AppError>)
    requires q in s.queries
    ensures var s' := Handle(s, Estimated(q, busy, estimate));
            && s'.runs == s.runs && s'.outside == s.outside
            && q in s'.queries
            && s'.queries[q] ==
               s.queries[q].(data := if estimate.Success? then Idle else Failed(Says(estimate.error)))
  {
    hide Except;
  }

  // ── ending, forgetting, closing ─────────────────────────────────────────

  /** What waited for a row that was cancelled says so, and a run's row is told so. */
  predicate GivenUp(s: State, s': State, owner: Owner) {
    match owner
    case OfConnection(c) =>
      c in s.conns && s.conns[c].status == Connecting ==> c in s'.conns && s'.conns[c].status == Broken("cancelled")
    case OfNode(c, node) =>
      c in s.conns ==>
        && c in s'.conns && node in s'.conns[c].tree.status
        && s'.conns[c].tree.status[node] == T.Failed("cancelled")
    case OfPreview(rel) =>
      rel in s.previews ==>
        && rel in s'.previews && s'.previews[rel].pending.None?
        && s'.previews[rel].data ==
           (if s.previews[rel].data.Ready? then s.previews[rel].data else Failed("cancelled"))
    case OfDefinition(rel) =>
      rel in s.definitions ==> rel in s'.definitions && s'.definitions[rel] == Failed("cancelled")
    case OfQuery(q) =>
      && (q in s.queries ==> q in s'.queries && s'.queries[q].data == Failed("cancelled"))
      && (s.library ==> TellsOf(s, s', q, RunCancelled))
    case OfHistory => s'.history.data == if s.history.data.Loading? then Failed("cancelled") else s.history.data
    case OfTemplates =>
      && s'.templates.failed == Some("cancelled")
      && s'.templates.data == if s.templates.data.Loading? then Failed("cancelled") else s.templates.data
  }

  lemma ACancel(s: State, row: BusyItem, issuer: Issuer)
    requires row in s.busy && Distinct(s.busy)
    ensures var s' := Apply(s, DoCancel(row.id), issuer);
            GivenUp(s, s', row.owner) && AsksNothing(s, s') && row.id !in s'.tasks
  {
    hide GivenUp, AsksNothing, Abandon, RowOf, Apply, DropAll;
    var i :| 0 <= i < |s.busy| && s.busy[i] == row;
    ItemAt(s.busy, i);
    Applied(s, DoCancel(row.id), issuer);
    var dropped := Drop(s, row.id);
    IsGivenUp(dropped, row.owner);
    OnlyDropped(s, row.id);
    IsGivenUpHere(s, dropped, Abandon(dropped, row.owner, CANCELLED), row.owner);
    NothingAsked(s, Abandon(dropped, row.owner, CANCELLED));
  }

  lemma OnlyDropped(s: State, id: BusyId)
    ensures var s' := Drop(s, id);
            && SameShown(s, s') && s'.runs == s.runs && s'.outside == s.outside && s'.library == s.library
            && s'.nextId == s.nextId && id !in s'.tasks
  {
    hide Except;
  }

  /** No task begins or ends. */
  predicate SameTasks(s: State, s': State) {
    s'.outside.spawned == s.outside.spawned && s'.nextId == s.nextId && s'.tasks == s.tasks
  }

  lemma IsGivenUp(s: State, owner: Owner)
    ensures GivenUp(s, Abandon(s, owner, CANCELLED), owner) && SameTasks(s, Abandon(s, owner, CANCELLED))
  {
    match owner {
      case OfQuery(q) => QueryIsGivenUp(s, q);
      case OfNode(c, node) => NodeIsGivenUp(s, c, node);
      case OfPreview(rel) => PreviewIsGivenUp(s, rel);
      case OfConnection(c) => ConnectionIsGivenUp(s, c);
      case _ => hide RecordEnd;
    }
  }

  lemma ConnectionIsGivenUp(s: State, c: ConnId)
    ensures var s' := Abandon(s, OfConnection(c), CANCELLED); GivenUp(s, s', OfConnection(c)) && SameTasks(s, s')
  {
    hide RecordEnd, T.FinishLoad, TellsOf;
  }

  lemma PreviewIsGivenUp(s: State, rel: Relation)
    ensures var s' := Abandon(s, OfPreview(rel), CANCELLED); GivenUp(s, s', OfPreview(rel)) && SameTasks(s, s')
  {
    hide RecordEnd, T.FinishLoad, TellsOf;
  }

  lemma NodeIsGivenUp(s: State, c: ConnId, node: T.NodeRef)
    ensures var s' := Abandon(s, OfNode(c, node), CANCELLED); GivenUp(s, s', OfNode(c, node)) && SameTasks(s, s')
  {
    hide T.Flatten, T.FinishLoad, RecordEnd, TellsOf;
    if c in s.conns {
      NodeHasFailed(s.conns[c].tree, node);
      TreeIsThere(s, c, T.FinishLoad(s.conns[c].tree, node, Failure(CANCELLED)));
    }
  }

  lemma NodeHasFailed(t: T.Tree, node: T.NodeRef)
    ensures var t' := T.FinishLoad(t, node, Failure(CANCELLED));
            node in t'.status && t'.status[node] == T.Failed("cancelled")
  {
  }

  lemma QueryIsGivenUp(s: State, q: QueryId)
    ensures var s' := Abandon(s, OfQuery(q), CANCELLED); GivenUp(s, s', OfQuery(q)) && SameTasks(s, s')
  {
    hide RecordEnd, TellsOf;
    var failed := if q in s.queries then s.(queries := s.queries[q := s.queries[q].(data := Failed(CANCELLED))]) else s;
    assert Abandon(s, OfQuery(q), CANCELLED) == RecordEnd(failed, q, RunCancelled);
    RowIsTold(failed, q, RunCancelled);
    SameTelling(s, failed, RecordEnd(failed, q, RunCancelled), q, RunCancelled);
  }

  lemma SameTelling(s: State, same: State, s': State, q: QueryId, outcome: RunOutcome)
    requires same.runs == s.runs && same.outside == s.outside
    ensures TellsOf(s, s', q, outcome) <==> TellsOf(same, s', q, outcome)
  {
  }

  lemma RowIsTold(s: State, q: QueryId, outcome: RunOutcome)
    ensures var s' := RecordEnd(s, q, outcome);
            (s.library ==> TellsOf(s, s', q, outcome)) && SameTasks(s, s') && s'.queries == s.queries
  {
    if q in s.runs {
      match s.runs[q] {
        case Written(row) => WrittenIsTold(s, q, row, outcome);
        case Starting(_) => OutcomeIsHeld(s, q, outcome);
      }
    }
  }

  lemma OutcomeIsHeld(s: State, q: QueryId, outcome: RunOutcome)
    requires q in s.runs && s.runs[q].Starting?
    ensures var s' := RecordEnd(s, q, outcome);
            TellsOf(s, s', q, outcome) && SameTasks(s, s') && s'.queries == s.queries
  {
    hide Settle;
    assert RecordEnd(s, q, outcome) == s.(runs := s.runs[q := Starting(Some(outcome))]);
  }

  lemma WrittenIsTold(s: State, q: QueryId, row: RowId, outcome: RunOutcome)
    requires q in s.runs && s.runs[q] == Written(row)
    ensures var s' := RecordEnd(s, q, outcome);
            (s.library ==> TellsOf(s, s', q, outcome)) && SameTasks(s, s') && s'.queries == s.queries
  {
    hide Settle, SameTasks;
    var taken := s.(runs := s.runs - {q});
    SettleIs(taken, row, outcome);
    SameTasksAs(s, taken, Settle(taken, row, outcome));
  }

  lemma SameTasksAs(s: State, same: State, s': State)
    requires same.outside == s.outside && same.nextId == s.nextId && same.tasks == s.tasks && SameTasks(same, s')
    ensures SameTasks(s, s')
  {
  }

  lemma SettleIs(s: State, row: RowId, outcome: RunOutcome)
    ensures var s' := Settle(s, row, outcome);
            && SameTasks(s, s') && s'.queries == s.queries && s'.runs == s.runs
            && (s.library ==> s'.outside.settled == s.outside.settled + [(row, outcome)])
  {
  }

  lemma IsGivenUpHere(s: State, dropped: State, s': State, owner: Owner)
    requires SameShown(s, dropped) && dropped.runs == s.runs && dropped.outside == s.outside
    requires dropped.library == s.library
    requires GivenUp(dropped, s', owner)
    ensures GivenUp(s, s', owner)
  {
  }

  /** Nothing is being done for a connection: nobody opens it, or fetches, or describes, or runs on it. */
  predicate Idles(s: State, c: ConnId) {
    forall id :: id in s.tasks ==>
      match s.tasks[id]
      case Connect(d) => d != c
      case ExpandNode(d, _) => d != c
      case FetchPage(rel, _) => rel.conn != c
      case DescribeTable(rel) => rel.conn != c
      case Run(q) => q in s.queries ==> s.queries[q].conn != c
      case RunOver(q, _) => q in s.queries ==> s.queries[q].conn != c
      case Estimating(q) => q in s.queries ==> s.queries[q].conn != c
      case _ => true
  }

  /** A connection that is gone has nothing done for it, as once it was disconnected it stays. */
  lemma GoneIsIdle(s: State, c: ConnId)
    requires BusyOk(s) && Gone(s, c)
    ensures Idles(s, c)
  {
    forall id | id in s.tasks
      ensures !BelongsTo(s, OwnerOf(s.tasks[id]), c)
    {
      assert RowOf(s.busy, id) == TaskRow(s.tasks, id);
      RowIsThere(s.busy, id);
    }
  }

  /** Forgetting takes away what is shown and whatever works on it. */
  lemma AForgottenPreview(s: State, rel: Relation, issuer: Issuer)
    ensures var s' := Apply(s, DoForgetPreview(rel), issuer);
            && rel !in s'.previews
            && (rel in s.previews && s.previews[rel].pending.Some? ==> s.previews[rel].pending.value.busy !in s'.tasks)
  {
    hide Except;
  }

  lemma AForgottenDefinition(s: State, rel: Relation, issuer: Issuer)
    requires BusyOk(s)
    ensures var s' := Apply(s, DoForgetDefinition(rel), issuer);
            rel !in s'.definitions && forall id :: id in s'.tasks ==> s'.tasks[id] != DescribeTable(rel)
  {
    hide Except;
    OwnedAreAll(s, OfDefinition(rel));
  }

  lemma AForgottenQuery(s: State, q: QueryId, issuer: Issuer)
    requires BusyOk(s)
    ensures var s' := Apply(s, DoForgetQuery(q), issuer);
            && q !in s'.queries
            && (forall id :: id in s'.tasks ==>
                  && s'.tasks[id] != Run(q) && s'.tasks[id] != Estimating(q)
                  && !(s'.tasks[id].RunOver? && s'.tasks[id].query == q))
  {
    hide Except;
    OwnedAreAll(s, OfQuery(q));
  }

  lemma OwnedAreAll(s: State, owner: Owner)
    requires BusyOk(s)
    ensures forall id :: id in s.tasks && OwnerOf(s.tasks[id]) == owner ==> id in OwnedBy(s.busy, owner)
  {
    forall id | id in s.tasks && OwnerOf(s.tasks[id]) == owner
      ensures id in OwnedBy(s.busy, owner)
    {
      assert RowOf(s.busy, id) == TaskRow(s.tasks, id);
      RowIsThere(s.busy, id);
    }
  }
}
