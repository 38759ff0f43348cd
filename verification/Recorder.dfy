/**
 What each action and each event does to what the history is kept in: the runs
 whose rows are known or awaited, the rows begun, and what they were told.
 */
module Recorder {
  import opened Wrappers
  import opened Store
  import opened Frames

  // ── what a step does to the records ─────────────────────────────────────

  /** What the history is kept in. */
  datatype Records =
    Records(runs: map<QueryId, Recording>, started: seq<RunStart>, settled: seq<(RowId, RunOutcome)>, library: bool)

  function RecordsOf(s: State): Records {
    Records(s.runs, s.outside.started, s.outside.settled, s.library)
  }

  function SettleOf(r: Records, row: RowId, outcome: RunOutcome): Records {
    if r.library then r.(settled := r.settled + [(row, outcome)]) else r
  }

  /** A run ended. */
  function EndOf(r: Records, q: QueryId, outcome: RunOutcome): Records {
    if q !in r.runs then r
    else
      match r.runs[q]
      case Written(row) => SettleOf(r.(runs := r.runs - {q}), row, outcome)
      case Starting(_) => r.(runs := r.runs[q := Starting(Some(outcome))])
  }

  /** A run began. */
  function StartOf(r: Records, run: RunStart): Records {
    if r.library then r.(runs := r.runs[run.query := Starting(None)], started := r.started + [run]) else r
  }

  /** A row was written, or was not. */
  function WrittenOf(r: Records, q: QueryId, written: Result<RowId, AppError>): Records {
    var taken := r.(runs := r.runs - {q});
    if written.Failure? || q !in r.runs then taken
    else
      match r.runs[q]
      case Starting(Some(outcome)) => SettleOf(taken, written.value, outcome)
      case Starting(None) => r.(runs := r.runs[q := Written(written.value)])
      case Written(_) => taken
  }

  lemma SettleIs(s: State, row: RowId, outcome: RunOutcome)
    ensures RecordsOf(Settle(s, row, outcome)) == SettleOf(RecordsOf(s), row, outcome)
  {
  }

  lemma RunsAre(s: State, runs: map<QueryId, Recording>)
    ensures RecordsOf(s.(runs := runs)) == RecordsOf(s).(runs := runs)
  {
  }

  lemma RecordEndIs(s: State, q: QueryId, outcome: RunOutcome)
    ensures RecordsOf(RecordEnd(s, q, outcome)) == EndOf(RecordsOf(s), q, outcome)
  {
    hide Settle, SettleOf;
    if q in s.runs {
      match s.runs[q] {
        case Written(row) =>
          RunsAre(s, s.runs - {q});
          SettleIs(s.(runs := s.runs - {q}), row, outcome);
        case Starting(_) => RunsAre(s, s.runs[q := Starting(Some(outcome))]);
      }
    }
  }

  lemma RecordStartIs(s: State, q: QueryId, c: ConnId, sql: string, issuer: Issuer)
    ensures RecordsOf(RecordStart(s, q, c, sql, issuer)) ==
            if c in s.conns then StartOf(RecordsOf(s), RunStart(q, c, sql, issuer)) else RecordsOf(s)
  {
  }

  lemma OnRecordedIs(s: State, q: QueryId, written: Result<RowId, AppError>)
    ensures RecordsOf(OnRecorded(s, q, written)) == WrittenOf(RecordsOf(s), q, written)
  {
    hide Settle, SettleOf, RecordsOf;
    var taken := s.(runs := s.runs - {q});
    RunsAre(s, s.runs - {q});
    SameRuns(s);
    if written.Success? && q in s.runs {
      RunsAre(s, s.runs[q := Written(written.value)]);
      if s.runs[q].Starting? && s.runs[q].outcome.Some? {
        SettleIs(taken, written.value, s.runs[q].outcome.value);
      }
    }
  }

  lemma SameRuns(s: State)
    ensures RecordsOf(s).runs == s.runs
  {
  }

  lemma SameIs(s: State, s': State)
    ensures SameRecords(s, s') <==> RecordsOf(s') == RecordsOf(s)
  {
  }

  lemma WorkRecords(s: State, ids: set<BusyId>, task: Task)
    ensures RecordsOf(DropAll(s, ids)) == RecordsOf(s) && RecordsOf(Begin(s, task)) == RecordsOf(s)
  {
    hide DropAll, Begin;
    DropShows(s, ids);
    BeginShows(s, task);
  }

  lemma QueryRecords(s: State, c: ConnId, q: QueryId, sql: string)
    ensures RecordsOf(EstimateQuery(s, c, q, sql)) == RecordsOf(s) && RecordsOf(ForgetQuery(s, q)) == RecordsOf(s)
  {
    hide DropAll, Begin, OwnedBy;
    WorkRecords(s, OwnedBy(s.busy, OfQuery(q)), Library);
    WorkRecords(s.(queries := s.queries[q := Query(c, sql, None, Loading)]), {}, Estimating(q));
  }

  function WhyOf(reason: string): RunOutcome {
    if reason == CANCELLED then RunCancelled else RunFailed(reason)
  }

  lemma AbandonRecords(s: State, o: Owner, reason: string)
    ensures RecordsOf(Abandon(s, o, reason)) ==
            if o.OfQuery? then EndOf(RecordsOf(s), o.query, WhyOf(reason)) else RecordsOf(s)
  {
    hide RecordEnd, EndOf, Abandon;
    if o.OfQuery? {
      AbandonsQuery(s, o.query, reason);
      var q := o.query;
      RecordEndIs(if q in s.queries then s.(queries := s.queries[q := s.queries[q].(data := Failed(reason))]) else s,
                  q, WhyOf(reason));
    } else {
      AbandonTouches(s, o, reason);
    }
  }

  lemma AbandonsQuery(s: State, q: QueryId, reason: string)
    ensures Abandon(s, OfQuery(q), reason) ==
            RecordEnd(if q in s.queries then s.(queries := s.queries[q := s.queries[q].(data := Failed(reason))])
                      else s,
                      q, WhyOf(reason))
  {
    hide RecordEnd;
  }

  lemma RanRecords(s: State, q: QueryId, output: Result<RunOutput, AppError>)
    ensures RecordsOf(OnRan(s, q, output)) ==
            if q in s.queries then EndOf(RecordsOf(s), q, OutcomeOf(output)) else RecordsOf(s)
  {
    hide RecordEnd, EndOf, Heard, OutcomeOf;
    if q in s.queries {
      RecordEndIs(s.(queries := s.queries[q := Heard(s.queries[q], output)]), q, OutcomeOf(output));
    }
  }

  // ── what an action does to the records ──────────────────────────────────

  /** The run an action records, when it begins one. */
  function Begins(s: State, a: Action, issuer: Issuer): Option<RunStart> {
    match a
    case DoRun(c, q, sql) =>
      if SessionOf(s, c).Some? && q !in s.queries then Some(RunStart(q, c, sql, issuer)) else None
    case DoApprove(q) =>
      if q in s.queries && SessionOf(s, s.queries[q].conn).Some? && s.queries[q].needsApproval.Some?
      then Some(RunStart(q, s.queries[q].conn, s.queries[q].sql, issuer)) else None
    case _ => None
  }

  lemma RunRecords(s: State, c: ConnId, q: QueryId, sql: string, issuer: Issuer)
    ensures var begins := Begins(s, DoRun(c, q, sql), issuer);
            RecordsOf(RunQuery(s, c, q, sql, issuer)) ==
            if begins.Some? then StartOf(RecordsOf(s), begins.value) else RecordsOf(s)
  {
    hide RecordStart, Begin, StartOf;
    var ready := s.(queries := s.queries[q := Query(c, sql, None, Loading)]);
    RecordStartIs(ready, q, c, sql, issuer);
    WorkRecords(RecordStart(ready, q, c, sql, issuer), {}, Run(q));
  }

  lemma ApproveRecords(s: State, q: QueryId, issuer: Issuer)
    ensures var begins := Begins(s, DoApprove(q), issuer);
            RecordsOf(ApproveQuery(s, q, issuer)) ==
            if begins.Some? then StartOf(RecordsOf(s), begins.value) else RecordsOf(s)
  {
    hide RecordStart, Begin, StartOf;
    if q in s.queries && s.queries[q].needsApproval.Some? {
      var query := s.queries[q];
      var ready := s.(queries := s.queries[q := query.(needsApproval := None, data := Loading)]);
      RecordStartIs(ready, q, query.conn, query.sql, issuer);
      WorkRecords(RecordStart(ready, q, query.conn, query.sql, issuer), {}, RunOver(q, query.needsApproval.value));
    }
  }

  lemma CancelRecords(s: State, id: BusyId)
    ensures var row := RowOf(s.busy, id);
            RecordsOf(Cancel(s, id)) ==
            if row.Some? && row.value.owner.OfQuery? then EndOf(RecordsOf(s), row.value.owner.query, RunCancelled)
            else RecordsOf(s)
  {
    hide RowOf, DropAll, Abandon, EndOf;
    WorkRecords(s, {id}, Library);
    if RowOf(s.busy, id).Some? {
      AbandonRecords(Drop(s, id), RowOf(s.busy, id).value.owner, CANCELLED);
    }
  }

  /** Every run named by one of the rows ends, in their order. */
  function EndAll(r: Records, rows: seq<BusyItem>, outcome: RunOutcome): Records
    decreases |rows|
  {
    if rows == [] then r
    else EndAll(if rows[0].owner.OfQuery? then EndOf(r, rows[0].owner.query, outcome) else r, rows[1..], outcome)
  }

  lemma DropOrphanRecords(s: State, row: BusyItem)
    ensures RecordsOf(DropOrphan(s, row)) ==
            if row.owner.OfQuery? then EndOf(RecordsOf(s), row.owner.query, RunFailed(DISCONNECTED)) else RecordsOf(s)
  {
    hide DropAll, Abandon, EndOf;
    WorkRecords(s, {row.id}, Library);
    AbandonRecords(Drop(s, row.id), row.owner, DISCONNECTED);
  }

  lemma {:induction false} OrphansRecords(s: State, rows: seq<BusyItem>)
    ensures RecordsOf(DropOrphans(s, rows)) == EndAll(RecordsOf(s), rows, RunFailed(DISCONNECTED))
    decreases |rows|
  {
    hide DropOrphan, EndOf, RecordsOf;
    if rows != [] {
      DropOrphanRecords(s, rows[0]);
      OrphansRecords(DropOrphan(s, rows[0]), rows[1..]);
    }
  }

  lemma DisconnectRecords(s: State, c: ConnId)
    ensures RecordsOf(Disconnect(s, c)) ==
            EndAll(RecordsOf(s), Orphans(CloseConn(s, c), s.busy, c), RunFailed(DISCONNECTED))
  {
    hide CloseConn, DropOrphans, Orphans, EndAll;
    var closed := CloseConn(s, c);
    CloseConnKeeps(s, c);
    ClosingRecords(s, c);
    OrphansRecords(closed, Orphans(closed, s.busy, c));
  }

  lemma ClosingRecords(s: State, c: ConnId)
    ensures RecordsOf(CloseConn(s, c)) == RecordsOf(s)
  {
  }

  /** Any other action leaves the history alone. */
  lemma OtherRecords(s: State, a: Action, issuer: Issuer)
    requires !a.DoRun? && !a.DoApprove? && !a.DoCancel? && !a.DoDisconnect?
    ensures RecordsOf(Apply(s, a, issuer)) == RecordsOf(s)
  {
    hide Apply, EstimateQuery, ForgetQuery, RecordsOf;
    Applied(s, a, issuer);
    if a.DoEstimate? {
      QueryRecords(s, a.conn, a.query, a.sql);
    } else if a.DoForgetQuery? {
      QueryRecords(s, 0, a.query, "");
    } else {
      ApplyTouches(s, a, issuer);
      SameIs(s, Apply(s, a, issuer));
    }
  }

  // ── what an event does to the records ───────────────────────────────────

  lemma HandleRecords(s: State, e: Event)
    ensures RecordsOf(Handle(s, e)) ==
            if e.Recorded? then WrittenOf(RecordsOf(s), e.query, e.written)
            else if e.Ran? && e.query in s.queries then EndOf(RecordsOf(s), e.query, OutcomeOf(e.output))
            else RecordsOf(s)
  {
    hide RecordsOf, DropAll, OnRan, OnEstimated, OnRecorded, WrittenOf, EndOf, OutcomeOf, Handle, Told, SessionDied;
    Handled(s, e);
    if e.Recorded? {
      OnRecordedIs(s, e.query, e.written);
      return;
    }
    var dropped := Drop(s, e.busy);
    WorkRecords(s, {e.busy}, Library);
    DropShows(s, {e.busy});
    if e.Ran? {
      RanRecords(dropped, e.query, e.output);
    } else if e.Estimated? {
      EstimatedRecords(dropped, e.query, e.estimate);
    } else if e.Previewed? {
      var told := Told(dropped, e.rel, e.page, e.rows);
      PreviewedTouches(s, e);
      SameIs(s, told);
      SessionDiedTouches(told, e.rel.conn, T.ROOT);
      SameIs(told, SessionDied(told, e.rel.conn));
    } else {
      HandleTouches(s, e);
      SameIs(s, Handle(s, e));
    }
  }

  lemma EstimatedRecords(s: State, q: QueryId, estimate: Result<A.Estimate, AppError>)
    ensures RecordsOf(OnEstimated(s, q, estimate)) == RecordsOf(s)
  {
    hide Message;
  }
}
