/**
 What the history says over whole runs: no row is told two outcomes, none is told
 of another query, and, while runs of a query do not overlap, one row of it is
 written at a time and none that was written is forgotten.
 */
module HistoryLaws {
  import opened Wrappers
  import opened Store
  import opened Runs
  import opened Rows
  import opened Frames
  import opened Loading
  import opened Queries
  import opened Recorder

  // ── at most one outcome ─────────────────────────────────────────────────

  /** The rows that have been told an outcome. */
  function ToldRows(settled: seq<(RowId, RunOutcome)>): set<RowId> {
    set told | told in settled :: told.0
  }

  /** The rows that are written and whose run has not ended. */
  function WrittenRows(runs: map<QueryId, Recording>): set<RowId> {
    set q | q in runs && runs[q].Written? :: runs[q].row
  }

  predicate Carries(e: Event, row: RowId) {
    e.Recorded? && e.written == Success(row)
  }

  predicate RowsDiffer(settled: seq<(RowId, RunOutcome)>) {
    forall i, j :: 0 <= i < j < |settled| ==> settled[i].0 != settled[j].0
  }

  /** A row is in the mail, or with its run, or told, and only one of these. */
  ghost predicate OneOutcome(r: Records, mailbox: seq<Event>, answered: set<RowId>) {
    && (forall i, j, row :: 0 <= i < j < |mailbox| && Carries(mailbox[i], row) ==> !Carries(mailbox[j], row))
    && (forall i, row :: 0 <= i < |mailbox| && Carries(mailbox[i], row) ==>
          row in answered && row !in ToldRows(r.settled) && row !in WrittenRows(r.runs))
    && (forall p, q | p in r.runs && q in r.runs :: r.runs[p].Written? && r.runs[p] == r.runs[q] ==> p == q)
    && (forall row :: row in WrittenRows(r.runs) ==> row in answered && row !in ToldRows(r.settled))
    && RowsDiffer(r.settled)
    && (forall row :: row in ToldRows(r.settled) ==> row in answered)
    && (forall row :: row in answered ==> row < |r.started|)
  }

  lemma ToldMore(settled: seq<(RowId, RunOutcome)>, row: RowId, outcome: RunOutcome)
    ensures ToldRows(settled + [(row, outcome)]) == ToldRows(settled) + {row}
    ensures RowsDiffer(settled) && row !in ToldRows(settled) ==> RowsDiffer(settled + [(row, outcome)])
  {
    var more := settled + [(row, outcome)];
    assert more[|settled|] == (row, outcome);
    forall x | x in ToldRows(settled) + {row}
      ensures x in ToldRows(more)
    {
      if x in ToldRows(settled) {
        var told :| told in settled && told.0 == x;
        assert told in more;
      } else {
        assert (row, outcome) in more;
      }
    }
  }

  lemma WrittenFewer(runs: map<QueryId, Recording>, q: QueryId, held: Recording)
    ensures WrittenRows(runs - {q}) <= WrittenRows(runs)
    ensures held.Starting? ==> WrittenRows(runs[q := held]) <= WrittenRows(runs)
    ensures held.Written? ==> WrittenRows(runs[q := held]) <= WrittenRows(runs) + {held.row}
  {
    forall row | row in WrittenRows(runs - {q})
      ensures row in WrittenRows(runs)
    {
      var p :| p in runs - {q} && (runs - {q})[p].Written? && (runs - {q})[p].row == row;
      assert p in runs && runs[p].Written? && runs[p].row == row;
    }
    var more := runs[q := held];
    forall row | row in WrittenRows(more) && !(held.Written? && held.row == row)
      ensures row in WrittenRows(runs)
    {
      var p :| p in more && more[p].Written? && more[p].row == row;
      assert p in runs && runs[p].Written? && runs[p].row == row;
    }
  }

  /** A run without its row any more does not have it in another place. */
  lemma WrittenGone(runs: map<QueryId, Recording>, q: QueryId)
    requires q in runs && runs[q].Written?
    requires forall a, b | a in runs && b in runs :: runs[a].Written? && runs[a] == runs[b] ==> a == b
    ensures runs[q].row !in WrittenRows(runs - {q}) && runs[q].row in WrittenRows(runs)
  {
  }

  lemma EndKeepsOne(r: Records, q: QueryId, outcome: RunOutcome, mailbox: seq<Event>, answered: set<RowId>)
    requires OneOutcome(r, mailbox, answered)
    ensures OneOutcome(EndOf(r, q, outcome), mailbox, answered)
  {
    hide ToldRows, WrittenRows, RowsDiffer, Carries;
    if q in r.runs {
      WrittenFewer(r.runs, q, Starting(Some(outcome)));
      if r.runs[q].Written? {
        WrittenGone(r.runs, q);
        ToldMore(r.settled, r.runs[q].row, outcome);
      }
    }
  }

  lemma StartKeepsOne(r: Records, run: RunStart, mailbox: seq<Event>, answered: set<RowId>)
    requires OneOutcome(r, mailbox, answered)
    ensures OneOutcome(StartOf(r, run), mailbox, answered)
  {
    hide ToldRows, WrittenRows, RowsDiffer, Carries;
    WrittenFewer(r.runs, run.query, Starting(None));
  }

  /** A row that has been read out of the mail is nowhere else. */
  lemma RowArrives(r: Records, q: QueryId, written: Result<RowId, AppError>, mailbox: seq<Event>, answered: set<RowId>)
    requires mailbox != [] && mailbox[0] == Recorded(q, written) && OneOutcome(r, mailbox, answered)
    ensures OneOutcome(r, mailbox[1..], answered)
    ensures written.Success? ==>
              && written.value in answered && written.value !in ToldRows(r.settled)
              && written.value !in WrittenRows(r.runs)
              && forall i :: 0 <= i < |mailbox[1..]| ==> !Carries(mailbox[1..][i], written.value)
  {
    hide ToldRows, WrittenRows, RowsDiffer;
    var rest := mailbox[1..];
    assert forall i :: 0 <= i < |rest| ==> rest[i] == mailbox[i + 1];
    if written.Success? {
      assert Carries(mailbox[0], written.value);
    }
  }

  lemma WrittenKeepsOne(r: Records, q: QueryId, written: Result<RowId, AppError>, mailbox: seq<Event>,
                        answered: set<RowId>)
    requires OneOutcome(r, mailbox, answered)
    requires written.Success? ==>
               && written.value in answered && written.value !in ToldRows(r.settled)
               && written.value !in WrittenRows(r.runs)
               && forall i :: 0 <= i < |mailbox| ==> !Carries(mailbox[i], written.value)
    ensures OneOutcome(WrittenOf(r, q, written), mailbox, answered)
  {
    hide ToldRows, WrittenRows, RowsDiffer, Carries;
    WrittenFewer(r.runs, q, Starting(None));
    if written.Success? && q in r.runs && r.runs[q].Starting? {
      if r.runs[q].outcome.Some? {
        ToldMore(r.settled, written.value, r.runs[q].outcome.value);
      } else {
        WrittenFewer(r.runs, q, Written(written.value));
        HasWritten(r.runs[q := Written(written.value)], q);
        forall p | p in r.runs && p != q && r.runs[p].Written?
          ensures r.runs[p].row != written.value
        {
          HasWritten(r.runs, p);
        }
      }
    }
  }

  lemma HasWritten(runs: map<QueryId, Recording>, q: QueryId)
    requires q in runs && runs[q].Written?
    ensures runs[q].row in WrittenRows(runs)
  {
  }

  lemma {:induction false} EndAllKeepsOne(r: Records, rows: seq<BusyItem>, outcome: RunOutcome, mailbox: seq<Event>,
                                          answered: set<RowId>)
    requires OneOutcome(r, mailbox, answered)
    ensures OneOutcome(EndAll(r, rows, outcome), mailbox, answered)
    decreases |rows|
  {
    hide OneOutcome, EndOf;
    if rows != [] {
      if rows[0].owner.OfQuery? {
        EndKeepsOne(r, rows[0].owner.query, outcome, mailbox, answered);
        EndAllKeepsOne(EndOf(r, rows[0].owner.query, outcome), rows[1..], outcome, mailbox, answered);
      } else {
        EndAllKeepsOne(r, rows[1..], outcome, mailbox, answered);
      }
    }
  }

  lemma ApplyKeepsOne(s: State, a: Action, issuer: Issuer, mailbox: seq<Event>, answered: set<RowId>)
    requires OneOutcome(RecordsOf(s), mailbox, answered)
    ensures OneOutcome(RecordsOf(Apply(s, a, issuer)), mailbox, answered)
  {
    hide RecordsOf, OneOutcome, StartOf, EndOf, EndAll, RunQuery, ApproveQuery, Cancel, Disconnect, RowOf, Orphans,
         CloseConn, ConnectTo, OpenNode, PreviewTable, Describe, ForgetDefinition, SortPreview, LoadMore, ForgetPreview,
         EstimateQuery, ForgetQuery, SearchHistory, WithLibrary, Begins;
    var r := RecordsOf(s);
    match a {
      case DoRun(c, q, sql) =>
        RunRecords(s, c, q, sql, issuer);
        if Begins(s, a, issuer).Some? {
          StartKeepsOne(r, Begins(s, a, issuer).value, mailbox, answered);
        }
      case DoApprove(q) =>
        ApproveRecords(s, q, issuer);
        if Begins(s, a, issuer).Some? {
          StartKeepsOne(r, Begins(s, a, issuer).value, mailbox, answered);
        }
      case DoCancel(id) =>
        CancelRecords(s, id);
        if RowOf(s.busy, id).Some? && RowOf(s.busy, id).value.owner.OfQuery? {
          EndKeepsOne(r, RowOf(s.busy, id).value.owner.query, RunCancelled, mailbox, answered);
        }
      case DoDisconnect(c) =>
        DisconnectRecords(s, c);
        EndAllKeepsOne(r, Orphans(CloseConn(s, c), s.busy, c), RunFailed(DISCONNECTED), mailbox, answered);
      case _ => OtherRecords(s, a, issuer);
    }
  }

  lemma MailKeepsOne(r: Records, mailbox: seq<Event>, answered: set<RowId>, e: Event)
    requires OneOutcome(r, mailbox, answered) && !e.Recorded?
    ensures OneOutcome(r, mailbox + [e], answered)
  {
    hide ToldRows, WrittenRows, RowsDiffer;
    var more := mailbox + [e];
    assert forall i :: 0 <= i < |more| && more[i].Recorded? ==> i < |mailbox| && more[i] == mailbox[i];
  }

  lemma AnswerKeepsOne(r: Records, mailbox: seq<Event>, answered: set<RowId>, row: RowId, e: Event)
    requires OneOutcome(r, mailbox, answered) && row !in answered && row < |r.started|
    requires e.Recorded? && (e.written.Success? ==> e.written.value == row)
    ensures OneOutcome(r, mailbox + [e], answered + {row})
  {
    hide ToldRows, WrittenRows, RowsDiffer;
    var more := mailbox + [e];
    assert forall i :: 0 <= i < |more| ==> more[i] == if i < |mailbox| then mailbox[i] else e;
  }

  lemma HandleKeepsOne(s: State, mailbox: seq<Event>, answered: set<RowId>)
    requires mailbox != [] && OneOutcome(RecordsOf(s), mailbox, answered)
    ensures OneOutcome(RecordsOf(Handle(s, mailbox[0])), mailbox[1..], answered)
  {
    hide RecordsOf, OneOutcome, EndOf, WrittenOf, Handle, ToldRows, WrittenRows, Carries;
    var e := mailbox[0];
    var r := RecordsOf(s);
    HandleRecords(s, e);
    if e.Recorded? {
      RowArrives(r, e.query, e.written, mailbox, answered);
      WrittenKeepsOne(r, e.query, e.written, mailbox[1..], answered);
    } else {
      LessMailKeepsOne(r, mailbox, answered);
      if e.Ran? && e.query in s.queries {
        EndKeepsOne(r, e.query, OutcomeOf(e.output), mailbox[1..], answered);
      }
    }
  }

  lemma LessMailKeepsOne(r: Records, mailbox: seq<Event>, answered: set<RowId>)
    requires mailbox != [] && OneOutcome(r, mailbox, answered)
    ensures OneOutcome(r, mailbox[1..], answered)
  {
    hide ToldRows, WrittenRows, RowsDiffer, Carries;
    assert forall i :: 0 <= i < |mailbox[1..]| ==> mailbox[1..][i] == mailbox[i + 1];
  }

  lemma StepKeepsOne(w: World, step: Step)
    requires OneOutcome(RecordsOf(w.s), w.mailbox, w.answered) && Enabled(w, step)
    ensures OneOutcome(RecordsOf(Next(w, step).s), Next(w, step).mailbox, Next(w, step).answered)
  {
    hide OneOutcome, RecordsOf, Apply, Handle, RepliesTo;
    match step {
      case Dispatched(_, _) =>
      case Acted =>
        CountedRecords(w.s);
        ApplyKeepsOne(w.s.(applied := w.s.applied + 1), w.queue[0].0, w.queue[0].1, w.mailbox, w.answered);
      case Received => HandleKeepsOne(w.s, w.mailbox, w.answered);
      case Completed(e) => ReplyIsNoRow(w, e); MailKeepsOne(RecordsOf(w.s), w.mailbox, w.answered, e);
      case RowAnswered(row, failed) =>
        StartedOf(w.s);
        AnswerKeepsOne(RecordsOf(w.s), w.mailbox, w.answered, row, RowReply(w, row, failed));
    }
  }

  lemma ReplyIsNoRow(w: World, e: Event)
    requires RepliesTo(e, w)
    ensures !e.Recorded?
  {
  }

  lemma CountedRecords(s: State)
    ensures RecordsOf(s.(applied := s.applied + 1)) == RecordsOf(s)
  {
  }

  lemma StartedOf(s: State)
    ensures RecordsOf(s).started == s.outside.started && RecordsOf(s).settled == s.outside.settled
  {
  }

  lemma {:induction false} RunKeepsOne(w: World, steps: seq<Step>)
    requires OneOutcome(RecordsOf(w.s), w.mailbox, w.answered) && Legal(w, steps)
    ensures var w' := After(w, steps); OneOutcome(RecordsOf(w'.s), w'.mailbox, w'.answered)
    decreases |steps|
  {
    hide OneOutcome, RecordsOf, Enabled, Next;
    if steps != [] {
      StepKeepsOne(w, steps[0]);
      RunKeepsOne(Next(w, steps[0]), steps[1..]);
    }
  }

  /** In every run, a history row is told how its run ended at most once, and only after it was written. */
  lemma RowsSettleAtMostOnce(g: Wiring, steps: seq<Step>)
    requires Legal(Begun(g), steps)
    ensures var w := After(Begun(g), steps);
            && RowsDiffer(w.s.outside.settled)
            && forall row :: row in ToldRows(w.s.outside.settled) ==> row in w.answered && row < |w.s.outside.started|
  {
    hide Legal, After, Begun, RecordsOf, ToldRows, WrittenRows, RowsDiffer, Carries;
    BegunKeepsOne(g);
    RunKeepsOne(Begun(g), steps);
    StartedOf(After(Begun(g), steps).s);
  }

  lemma BegunKeepsOne(g: Wiring)
    ensures OneOutcome(RecordsOf(Begun(g).s), Begun(g).mailbox, Begun(g).answered)
  {
  }

  // ── and of its own query ────────────────────────────────────────────────

  /** An outcome the query's runs have had: one that a reply gave, or that somebody's giving up did. */
  predicate Had(received: seq<Event>, q: QueryId, outcome: RunOutcome) {
    || outcome == RunCancelled
    || outcome == RunFailed(DISCONNECTED)
    || exists i :: 0 <= i < |received| && received[i].Ran? && received[i].query == q
                   && OutcomeOf(received[i].output) == outcome
  }

  predicate RowIsFor(r: Records, row: RowId, q: QueryId) {
    row < |r.started| && r.started[row].query == q
  }

  /** What is told, and what is held to be told, is an outcome of the row's own query. */
  ghost predicate OwnOutcomes(r: Records, received: seq<Event>, mailbox: seq<Event>) {
    && (forall told :: told in r.settled ==>
          told.0 < |r.started| && Had(received, r.started[told.0].query, told.1))
    && (forall q :: q in r.runs && r.runs[q].Starting? && r.runs[q].outcome.Some? ==>
          Had(received, q, r.runs[q].outcome.value))
    && (forall q :: q in r.runs && r.runs[q].Written? ==> RowIsFor(r, r.runs[q].row, q))
    && (forall i :: 0 <= i < |mailbox| && mailbox[i].Recorded? && mailbox[i].written.Success? ==>
          RowIsFor(r, mailbox[i].written.value, mailbox[i].query))
  }

  lemma EndIsOwn(r: Records, q: QueryId, outcome: RunOutcome, received: seq<Event>, mailbox: seq<Event>)
    requires OwnOutcomes(r, received, mailbox) && Had(received, q, outcome)
    ensures OwnOutcomes(EndOf(r, q, outcome), received, mailbox)
  {
    hide Had;
  }

  lemma {:induction false} EndAllIsOwn(r: Records, rows: seq<BusyItem>, received: seq<Event>, mailbox: seq<Event>)
    requires OwnOutcomes(r, received, mailbox)
    ensures OwnOutcomes(EndAll(r, rows, RunFailed(DISCONNECTED)), received, mailbox)
    decreases |rows|
  {
    hide OwnOutcomes, EndOf;
    if rows != [] {
      if rows[0].owner.OfQuery? {
        EndIsOwn(r, rows[0].owner.query, RunFailed(DISCONNECTED), received, mailbox);
        EndAllIsOwn(EndOf(r, rows[0].owner.query, RunFailed(DISCONNECTED)), rows[1..], received, mailbox);
      } else {
        EndAllIsOwn(r, rows[1..], received, mailbox);
      }
    }
  }

  lemma StartIsOwn(r: Records, run: RunStart, received: seq<Event>, mailbox: seq<Event>)
    requires OwnOutcomes(r, received, mailbox)
    ensures OwnOutcomes(StartOf(r, run), received, mailbox)
  {
    hide Had;
  }

  lemma ApplyIsOwn(s: State, a: Action, issuer: Issuer, received: seq<Event>, mailbox: seq<Event>)
    requires OwnOutcomes(RecordsOf(s), received, mailbox)
    ensures OwnOutcomes(RecordsOf(Apply(s, a, issuer)), received, mailbox)
  {
    hide RecordsOf, OwnOutcomes, StartOf, EndOf, EndAll, RunQuery, ApproveQuery, Cancel, Disconnect, RowOf, Orphans,
         CloseConn, Begins, Apply;
    var r := RecordsOf(s);
    Applied(s, a, issuer);
    if a.DoRun? || a.DoApprove? {
      if a.DoRun? {
        RunRecords(s, a.conn, a.query, a.sql, issuer);
      } else {
        ApproveRecords(s, a.query, issuer);
      }
      if Begins(s, a, issuer).Some? {
        StartIsOwn(r, Begins(s, a, issuer).value, received, mailbox);
      }
    } else if a.DoCancel? {
      CancelRecords(s, a.id);
      if RowOf(s.busy, a.id).Some? && RowOf(s.busy, a.id).value.owner.OfQuery? {
        EndIsOwn(r, RowOf(s.busy, a.id).value.owner.query, RunCancelled, received, mailbox);
      }
    } else if a.DoDisconnect? {
      DisconnectRecords(s, a.conn);
      EndAllIsOwn(r, Orphans(CloseConn(s, a.conn), s.busy, a.conn), received, mailbox);
    } else {
      OtherRecords(s, a, issuer);
    }
  }

  lemma HadStill(received: seq<Event>, e: Event, q: QueryId, outcome: RunOutcome)
    requires Had(received, q, outcome)
    ensures Had(received + [e], q, outcome)
  {
    var more := received + [e];
    assert forall i :: 0 <= i < |received| ==> more[i] == received[i];
    if outcome != RunCancelled && outcome != RunFailed(DISCONNECTED) {
      var i :| 0 <= i < |received| && received[i].Ran? && received[i].query == q
               && OutcomeOf(received[i].output) == outcome;
      assert more[i].Ran?;
    }
  }

  lemma TakingIsOwn(r: Records, received: seq<Event>, mailbox: seq<Event>)
    requires mailbox != [] && OwnOutcomes(r, received, mailbox)
    ensures OwnOutcomes(r, received + [mailbox[0]], mailbox[1..])
    ensures mailbox[0].Recorded? && mailbox[0].written.Success? ==>
              RowIsFor(r, mailbox[0].written.value, mailbox[0].query)
    ensures mailbox[0].Ran? ==> Had(received + [mailbox[0]], mailbox[0].query, OutcomeOf(mailbox[0].output))
  {
    hide Had;
    var more, rest := received + [mailbox[0]], mailbox[1..];
    forall q, outcome | Had(received, q, outcome)
      ensures Had(more, q, outcome)
    {
      HadStill(received, mailbox[0], q, outcome);
    }
    assert forall i :: 0 <= i < |rest| ==> rest[i] == mailbox[i + 1];
    if mailbox[0].Ran? {
      HadNow(received, mailbox[0]);
    }
  }

  lemma HadNow(received: seq<Event>, e: Event)
    requires e.Ran?
    ensures Had(received + [e], e.query, OutcomeOf(e.output))
  {
    assert (received + [e])[|received|] == e;
  }

  lemma WrittenIsOwn(r: Records, q: QueryId, written: Result<RowId, AppError>, received: seq<Event>,
                     mailbox: seq<Event>)
    requires OwnOutcomes(r, received, mailbox) && (written.Success? ==> RowIsFor(r, written.value, q))
    ensures OwnOutcomes(WrittenOf(r, q, written), received, mailbox)
  {
    hide Had;
  }

  lemma HandleIsOwn(s: State, received: seq<Event>, mailbox: seq<Event>)
    requires mailbox != [] && OwnOutcomes(RecordsOf(s), received, mailbox)
    ensures OwnOutcomes(RecordsOf(Handle(s, mailbox[0])), received + [mailbox[0]], mailbox[1..])
  {
    hide RecordsOf, OwnOutcomes, EndOf, WrittenOf, Handle, Had, RowIsFor, OutcomeOf;
    var e := mailbox[0];
    HandleRecords(s, e);
    TakingIsOwn(RecordsOf(s), received, mailbox);
    if e.Recorded? {
      WrittenIsOwn(RecordsOf(s), e.query, e.written, received + [e], mailbox[1..]);
    } else if e.Ran? && e.query in s.queries {
      EndIsOwn(RecordsOf(s), e.query, OutcomeOf(e.output), received + [e], mailbox[1..]);
    }
  }

  lemma MailIsOwn(r: Records, received: seq<Event>, mailbox: seq<Event>, e: Event)
    requires OwnOutcomes(r, received, mailbox)
    requires e.Recorded? && e.written.Success? ==> RowIsFor(r, e.written.value, e.query)
    ensures OwnOutcomes(r, received, mailbox + [e])
  {
    hide Had;
    assert forall i :: 0 <= i < |mailbox + [e]| ==> (mailbox + [e])[i] == if i < |mailbox| then mailbox[i] else e;
  }

  lemma StepIsOwn(w: World, step: Step)
    requires OwnOutcomes(RecordsOf(w.s), w.received, w.mailbox) && Enabled(w, step)
    ensures var w' := Next(w, step); OwnOutcomes(RecordsOf(w'.s), w'.received, w'.mailbox)
  {
    hide OwnOutcomes, RecordsOf, Apply, Handle, RepliesTo;
    match step {
      case Acted =>
        CountedRecords(w.s);
        ApplyIsOwn(w.s.(applied := w.s.applied + 1), w.queue[0].0, w.queue[0].1, w.received, w.mailbox);
      case Received => HandleIsOwn(w.s, w.received, w.mailbox);
      case Completed(e) =>
        ReplyIsNoRow(w, e);
        MailIsOwn(RecordsOf(w.s), w.received, w.mailbox, e);
      case RowAnswered(row, failed) =>
        StartedOf(w.s);
        MailIsOwn(RecordsOf(w.s), w.received, w.mailbox, RowReply(w, row, failed));
      case Dispatched(_, _) =>
    }
  }

  lemma {:induction false} RunIsOwn(w: World, steps: seq<Step>)
    requires OwnOutcomes(RecordsOf(w.s), w.received, w.mailbox) && Legal(w, steps)
    ensures var w' := After(w, steps); OwnOutcomes(RecordsOf(w'.s), w'.received, w'.mailbox)
    decreases |steps|
  {
    hide OwnOutcomes, RecordsOf, Enabled, Next;
    if steps != [] {
      StepIsOwn(w, steps[0]);
      RunIsOwn(Next(w, steps[0]), steps[1..]);
    }
  }

  /**
   In every run, no row is told of another query's run: what a row has been told
   is what a reply to a run of its own query said, or that it was cancelled, or
   that its connection was closed.
   */
  lemma RowsAreToldOfTheirOwnQuery(g: Wiring, steps: seq<Step>)
    requires Legal(Begun(g), steps)
    ensures var w := After(Begun(g), steps);
            forall told :: told in w.s.outside.settled ==>
              told.0 < |w.s.outside.started| && Had(w.received, w.s.outside.started[told.0].query, told.1)
  {
    hide Legal, After, Begun, RecordsOf, Had;
    BegunIsOwn(g);
    RunIsOwn(Begun(g), steps);
    StartedOf(After(Begun(g), steps).s);
  }

  lemma BegunIsOwn(g: Wiring)
    ensures OwnOutcomes(RecordsOf(Begun(g).s), Begun(g).received, Begun(g).mailbox)
  {
  }

  // ── one row at a time ───────────────────────────────────────────────────

  /** A row of the query that the library has not answered about. */
  predicate Unanswered(r: Records, answered: set<RowId>, q: QueryId, row: RowId) {
    row < |r.started| && r.started[row].query == q && row !in answered
  }

  /** What the library said about a row of the query, not yet read. */
  predicate Unread(mailbox: seq<Event>, q: QueryId, i: int) {
    0 <= i < |mailbox| && mailbox[i].Recorded? && mailbox[i].query == q
  }

  /** A row of the query is being written. */
  ghost predicate BeingWritten(r: Records, mailbox: seq<Event>, answered: set<RowId>, q: QueryId) {
    (exists row: RowId :: Unanswered(r, answered, q, row)) || exists i :: Unread(mailbox, q, i)
  }

  /** One row at a time, and a run waits for its row exactly while that is being written. */
  ghost predicate OneAtATime(r: Records, mailbox: seq<Event>, answered: set<RowId>, q: QueryId) {
    && (forall a: RowId, b: RowId :: Unanswered(r, answered, q, a) && Unanswered(r, answered, q, b) ==> a == b)
    && (forall i, j :: Unread(mailbox, q, i) && Unread(mailbox, q, j) ==> i == j)
    && (forall row: RowId, i :: !(Unanswered(r, answered, q, row) && Unread(mailbox, q, i)))
    && (BeingWritten(r, mailbox, answered, q) <==> q in r.runs && r.runs[q].Starting?)
    && (forall row :: row in answered ==> row < |r.started|)
  }

  /** The run of the query is not known to have ended. */
  predicate Unfinished(r: Records, q: QueryId) {
    q in r.runs && (r.runs[q].Written? || r.runs[q].outcome.None?)
  }

  /** Every row of the query that was written is told, or waits for its run to end. */
  ghost predicate NoneForgotten(r: Records, received: seq<Event>, q: QueryId) {
    forall i, row :: 0 <= i < |received| && received[i] == Recorded(q, Success(row)) ==>
      row in ToldRows(r.settled) || (q in r.runs && r.runs[q] == Written(row))
  }

  lemma MoreTold(r: Records, row: RowId, outcome: RunOutcome)
    requires r.library
    ensures ToldRows(SettleOf(r, row, outcome).settled) == ToldRows(r.settled) + {row}
  {
    ToldMore(r.settled, row, outcome);
  }

  /** An end of a run: nothing is forgotten, and the run is finished. */
  lemma EndForgetsNone(r: Records, q: QueryId, outcome: RunOutcome, received: seq<Event>, mailbox: seq<Event>,
                       answered: set<RowId>, p: QueryId)
    requires r.library || q !in r.runs
    requires NoneForgotten(r, received, p) && OneAtATime(r, mailbox, answered, p)
    ensures var r' := EndOf(r, q, outcome);
            && NoneForgotten(r', received, p) && OneAtATime(r', mailbox, answered, p)
            && !Unfinished(r', q) && (p != q ==> Unfinished(r', p) == Unfinished(r, p))
            && r'.library == r.library && r'.runs.Keys <= r.runs.Keys && r'.started == r.started
  {
    hide ToldRows, Unread;
    if q in r.runs && r.runs[q].Written? {
      MoreTold(r.(runs := r.runs - {q}), r.runs[q].row, outcome);
    }
    SameUnanswered(r, EndOf(r, q, outcome), mailbox, answered, p);
  }

  lemma SameUnanswered(r: Records, r': Records, mailbox: seq<Event>, answered: set<RowId>, q: QueryId)
    requires r'.started == r.started
    ensures forall row: RowId :: Unanswered(r', answered, q, row) == Unanswered(r, answered, q, row)
    ensures BeingWritten(r', mailbox, answered, q) == BeingWritten(r, mailbox, answered, q)
  {
    hide Unread;
    assert forall row: RowId :: Unanswered(r', answered, q, row) == Unanswered(r, answered, q, row);
  }

  /** A second row is begun only when the first is written and told. */
  lemma StartForgetsNone(r: Records, run: RunStart, received: seq<Event>, mailbox: seq<Event>, answered: set<RowId>,
                         q: QueryId)
    requires NoneForgotten(r, received, q) && OneAtATime(r, mailbox, answered, q)
    requires run.query == q ==> q !in r.runs
    ensures var r' := StartOf(r, run);
            && NoneForgotten(r', received, q) && OneAtATime(r', mailbox, answered, q)
            && (run.query != q ==> Unfinished(r', q) == Unfinished(r, q))
  {
    hide ToldRows, Unread;
    var r' := StartOf(r, run);
    if r.library {
      forall row: RowId
        ensures Unanswered(r', answered, q, row) <==>
                Unanswered(r, answered, q, row) || (row == |r.started| && run.query == q)
      {
      }
      if run.query == q {
        assert Unanswered(r', answered, q, |r.started|);
      } else {
        assert BeingWritten(r', mailbox, answered, q) == BeingWritten(r, mailbox, answered, q);
      }
    }
  }

  /** A row is written: it is told how its run ended, or kept for when it does. */
  lemma WrittenForgetsNone(r: Records, q: QueryId, written: Result<RowId, AppError>, received: seq<Event>,
                           mailbox: seq<Event>, answered: set<RowId>)
    requires r.library || q !in r.runs
    requires mailbox != [] && mailbox[0] == Recorded(q, written)
    requires NoneForgotten(r, received, q) && OneAtATime(r, mailbox, answered, q)
    ensures var r' := WrittenOf(r, q, written);
            && NoneForgotten(r', received + [mailbox[0]], q) && OneAtATime(r', mailbox[1..], answered, q)
            && (Unfinished(r', q) ==> Unfinished(r, q))
            && r'.library == r.library && r'.runs.Keys <= r.runs.Keys && r'.started == r.started
  {
    hide ToldRows;
    var r' := WrittenOf(r, q, written);
    var rest := mailbox[1..];
    assert Unread(mailbox, q, 0);
    assert BeingWritten(r, mailbox, answered, q);
    assert forall i :: Unread(rest, q, i) ==> Unread(mailbox, q, i + 1);
    assert !BeingWritten(r', rest, answered, q) by {
      SameUnanswered(r, r', mailbox, answered, q);
    }
    if written.Success? && r.runs[q].outcome.Some? {
      MoreTold(r.(runs := r.runs - {q}), written.value, r.runs[q].outcome.value);
    }
    assert forall i :: 0 <= i < |received + [mailbox[0]]| ==>
      (received + [mailbox[0]])[i] == if i < |received| then received[i] else mailbox[0];
  }

  // ── a query and its rows ────────────────────────────────────────────────

  predicate Kept(r: Records) {
    forall q :: q in r.runs ==> r.library
  }

  predicate HasRow(r: Records, q: QueryId) {
    exists row :: 0 <= row < |r.started| && r.started[row].query == q
  }

  predicate SpawnedFor(spawned: map<BusyId, Task>, q: QueryId, b: BusyId) {
    b in spawned && OwnerOf(spawned[b]) == OfQuery(q)
  }

  /** Only what ran is recorded, and what was estimated was not run. */
  ghost predicate RanOrEstimated(s: State, q: QueryId) {
    && (q in s.runs || HasRow(RecordsOf(s), q) ==> exists b :: SpawnedFor(s.outside.spawned, q, b))
    && ((exists b :: SpawnedFor(s.outside.spawned, q, b) && s.outside.spawned[b].Estimating?) ==>
          && q !in s.runs && !HasRow(RecordsOf(s), q)
          && (q in s.queries ==> s.queries[q].needsApproval.None?)
          && forall b :: SpawnedFor(s.outside.spawned, q, b) ==> s.outside.spawned[b].Estimating?)
  }

  ghost predicate Tidy(w: World, q: QueryId) {
    var r := RecordsOf(w.s);
    && OneAtATime(r, w.mailbox, w.answered, q) && NoneForgotten(r, w.received, q) && Kept(r)
    && (Unfinished(r, q) && q in w.s.queries ==> w.s.queries[q].data.Loading?)
    && RanOrEstimated(w.s, q)
  }

  /** What a step may do to a query it does not begin to run. */
  predicate KeepsQuery(s: State, s': State, q: QueryId) {
    q in s'.queries ==>
      && q in s.queries
      && s'.queries[q].needsApproval == s.queries[q].needsApproval
      && (s'.queries[q].data == s.queries[q].data || !Unfinished(RecordsOf(s'), q))
  }

  /** What a step may do to the records of a query it does not begin to run. */
  ghost predicate KeepsRecords(r: Records, r': Records, received: seq<Event>, mailbox: seq<Event>,
                               answered: set<RowId>, q: QueryId) {
    && NoneForgotten(r', received, q) && OneAtATime(r', mailbox, answered, q) && Kept(r')
    && (Unfinished(r', q) ==> Unfinished(r, q))
    && (q in r'.runs ==> q in r.runs)
    && (HasRow(r', q) ==> HasRow(r, q))
  }

  lemma SameKeeps(r: Records, received: seq<Event>, mailbox: seq<Event>, answered: set<RowId>, q: QueryId)
    requires NoneForgotten(r, received, q) && OneAtATime(r, mailbox, answered, q) && Kept(r)
    ensures KeepsRecords(r, r, received, mailbox, answered, q)
  {
  }

  lemma EndKeeps(r: Records, p: QueryId, outcome: RunOutcome, received: seq<Event>, mailbox: seq<Event>,
                 answered: set<RowId>, q: QueryId)
    requires NoneForgotten(r, received, q) && OneAtATime(r, mailbox, answered, q) && Kept(r)
    ensures KeepsRecords(r, EndOf(r, p, outcome), received, mailbox, answered, q)
    ensures p == q ==> !Unfinished(EndOf(r, p, outcome), q)
  {
    hide EndOf, NoneForgotten, OneAtATime, HasRow;
    EndForgetsNone(r, p, outcome, received, mailbox, answered, q);
    KeysKept(r, EndOf(r, p, outcome));
    SameRowsOf(r, EndOf(r, p, outcome), q);
  }

  lemma KeysKept(r: Records, r': Records)
    requires Kept(r) && r'.library == r.library && r'.runs.Keys <= r.runs.Keys
    ensures Kept(r') && forall q :: q in r'.runs ==> q in r.runs
  {
  }

  lemma SameRowsOf(r: Records, r': Records, q: QueryId)
    requires r'.started == r.started
    ensures HasRow(r', q) == HasRow(r, q)
  {
  }

  lemma KeepsTwice(r: Records, r1: Records, r2: Records, received: seq<Event>, mailbox: seq<Event>,
                   answered: set<RowId>,
                   q: QueryId)
    requires KeepsRecords(r, r1, received, mailbox, answered, q) && KeepsRecords(r1, r2, received, mailbox, answered, q)
    ensures KeepsRecords(r, r2, received, mailbox, answered, q)
  {
    hide NoneForgotten, OneAtATime, HasRow, Kept, Unfinished;
  }

  lemma {:induction false} EndAllKeeps(r: Records, rows: seq<BusyItem>, outcome: RunOutcome, received: seq<Event>,
                                       mailbox: seq<Event>, answered: set<RowId>, q: QueryId)
    requires NoneForgotten(r, received, q) && OneAtATime(r, mailbox, answered, q) && Kept(r)
    ensures KeepsRecords(r, EndAll(r, rows, outcome), received, mailbox, answered, q)
    ensures Named(rows, q) || !Unfinished(r, q) ==> !Unfinished(EndAll(r, rows, outcome), q)
    decreases |rows|
  {
    hide EndOf, NoneForgotten, OneAtATime, HasRow, Kept, Unfinished;
    if rows == [] {
      SameKeeps(r, received, mailbox, answered, q);
    } else {
      var r1 := if rows[0].owner.OfQuery? then EndOf(r, rows[0].owner.query, outcome) else r;
      if rows[0].owner.OfQuery? {
        EndKeeps(r, rows[0].owner.query, outcome, received, mailbox, answered, q);
      } else {
        SameKeeps(r, received, mailbox, answered, q);
      }
      EndAllKeeps(r1, rows[1..], outcome, received, mailbox, answered, q);
      KeepsTwice(r, r1, EndAll(r, rows, outcome), received, mailbox, answered, q);
      assert rows == [rows[0]] + rows[1..];
    }
  }

  lemma StartKeeps(r: Records, run: RunStart, received: seq<Event>, mailbox: seq<Event>, answered: set<RowId>,
                   q: QueryId)
    requires NoneForgotten(r, received, q) && OneAtATime(r, mailbox, answered, q) && Kept(r)
    requires run.query != q
    ensures KeepsRecords(r, StartOf(r, run), received, mailbox, answered, q)
  {
    hide NoneForgotten, OneAtATime;
    StartForgetsNone(r, run, received, mailbox, answered, q);
  }

  /** An action that begins no run of the query. */
  predicate Elsewhere(a: Action, q: QueryId) {
    !((a.DoRun? || a.DoApprove? || a.DoEstimate?) && a.query == q)
  }

  lemma ApplyKeepsRecords(s: State, a: Action, issuer: Issuer, received: seq<Event>, mailbox: seq<Event>,
                          answered: set<RowId>, q: QueryId)
    requires NoneForgotten(RecordsOf(s), received, q) && OneAtATime(RecordsOf(s), mailbox, answered, q)
    requires Kept(RecordsOf(s))
    requires Elsewhere(a, q)
    ensures KeepsRecords(RecordsOf(s), RecordsOf(Apply(s, a, issuer)), received, mailbox, answered, q)
    ensures a.DoCancel? && RowOf(s.busy, a.id).Some? && RowOf(s.busy, a.id).value.owner == OfQuery(q) ==>
              !Unfinished(RecordsOf(Apply(s, a, issuer)), q)
    ensures a.DoDisconnect? && Named(Orphans(CloseConn(s, a.conn), s.busy, a.conn), q) ==>
              !Unfinished(RecordsOf(Apply(s, a, issuer)), q)
  {
    hide RecordsOf, NoneForgotten, OneAtATime, Kept, KeepsRecords, StartOf, EndOf, EndAll, RunQuery, ApproveQuery,
         Cancel, Disconnect, RowOf, Orphans, CloseConn, ConnectTo, OpenNode, PreviewTable, Describe, ForgetDefinition,
         SortPreview, LoadMore, ForgetPreview, EstimateQuery, ForgetQuery, SearchHistory, WithLibrary, Begins,
         Unfinished, Named;
    var r := RecordsOf(s);
    SameKeeps(r, received, mailbox, answered, q);
    match a {
      case DoRun(c, p, sql) =>
        RunRecords(s, c, p, sql, issuer);
        BeginsOne(s, a, issuer);
        if Begins(s, a, issuer).Some? {
          StartKeeps(r, Begins(s, a, issuer).value, received, mailbox, answered, q);
        }
      case DoApprove(p) =>
        ApproveRecords(s, p, issuer);
        BeginsOne(s, a, issuer);
        if Begins(s, a, issuer).Some? {
          StartKeeps(r, Begins(s, a, issuer).value, received, mailbox, answered, q);
        }
      case DoCancel(id) =>
        CancelRecords(s, id);
        if RowOf(s.busy, id).Some? && RowOf(s.busy, id).value.owner.OfQuery? {
          EndKeeps(r, RowOf(s.busy, id).value.owner.query, RunCancelled, received, mailbox, answered, q);
        }
      case DoDisconnect(c) =>
        DisconnectRecords(s, c);
        EndAllKeeps(r, Orphans(CloseConn(s, c), s.busy, c), RunFailed(DISCONNECTED), received, mailbox, answered, q);
      case _ => OtherRecords(s, a, issuer);
    }
  }

  lemma BeginsOne(s: State, a: Action, issuer: Issuer)
    requires a.DoRun? || a.DoApprove?
    ensures Begins(s, a, issuer).Some? ==> Begins(s, a, issuer).value.query == a.query
  {
  }

  // ── a step of the loop that takes an action ─────────────────────────────

  lemma TouchedKeepsQuery(s: State, s': State, o: Owner, q: QueryId)
    requires Touches(s, s', o) && o != OfQuery(q)
    ensures KeepsQuery(s, s', q)
  {
    hide Unfinished;
  }

  lemma ApplyKeepsQuery(s: State, a: Action, issuer: Issuer, q: QueryId)
    requires Elsewhere(a, q)
    requires a.DoCancel? && RowOf(s.busy, a.id).Some? && RowOf(s.busy, a.id).value.owner == OfQuery(q) ==>
               !Unfinished(RecordsOf(Apply(s, a, issuer)), q)
    requires a.DoDisconnect? && Named(Orphans(CloseConn(s, a.conn), s.busy, a.conn), q) ==>
               !Unfinished(RecordsOf(Apply(s, a, issuer)), q)
    ensures KeepsQuery(s, Apply(s, a, issuer), q)
  {
    hide RecordsOf, Unfinished, Disconnect, KeepsQuery, ForgetQuery, Cancel, Touches, RowOf, Orphans, CloseConn, Named,
         Apply;
    Applied(s, a, issuer);
    match a {
      case DoDisconnect(c) => DisconnectKeepsQuery(s, c, q);
      case DoCancel(id) => CancelKeepsQuery(s, id, q);
      case _ =>
        if a == DoForgetQuery(q) {
          Forgotten(s, q);
        } else {
          ApplyTouches(s, a, issuer);
          TouchedKeepsQuery(s, Apply(s, a, issuer), Subject(s, a), q);
        }
    }
  }

  lemma Forgotten(s: State, q: QueryId)
    ensures KeepsQuery(s, ForgetQuery(s, q), q)
  {
    hide DropAll, Unfinished;
  }

  lemma CancelKeepsQuery(s: State, id: BusyId, q: QueryId)
    requires RowOf(s.busy, id).Some? && RowOf(s.busy, id).value.owner == OfQuery(q) ==>
               !Unfinished(RecordsOf(Cancel(s, id)), q)
    ensures KeepsQuery(s, Cancel(s, id), q)
  {
    hide RecordsOf, Unfinished, Cancel, RowOf, Touches;
    CancelShows(s, id);
    if !(RowOf(s.busy, id).Some? && RowOf(s.busy, id).value.owner == OfQuery(q)) {
      TouchedKeepsQuery(s, Cancel(s, id), Subject(s, DoCancel(id)), q);
    }
  }

  lemma DisconnectKeepsQuery(s: State, c: ConnId, q: QueryId)
    requires Named(Orphans(CloseConn(s, c), s.busy, c), q) ==> !Unfinished(RecordsOf(Disconnect(s, c)), q)
    ensures KeepsQuery(s, Disconnect(s, c), q)
  {
    hide RecordsOf, Unfinished, Disconnect, Orphans, CloseConn, Named, SameBut;
    DisconnectShows(s, c);
  }

  lemma StartsElsewhere(s: State, a: Action, t: Task, q: QueryId)
    requires Starts(s, a, t) && Elsewhere(a, q)
    ensures OwnerOf(t) != OfQuery(q)
  {
  }

  /** What is spawned for the query is what was spawned, and what began. */
  lemma SpawnedAfter(s: State, s': State, ended: set<BusyId>, begun: Option<Task>, q: QueryId)
    requires BusyOk(s) && Works(s, s', ended, begun)
    ensures forall b :: SpawnedFor(s.outside.spawned, q, b) ==>
              SpawnedFor(s'.outside.spawned, q, b) && s'.outside.spawned[b] == s.outside.spawned[b]
    ensures forall b :: SpawnedFor(s'.outside.spawned, q, b) ==>
              SpawnedFor(s.outside.spawned, q, b)
              || (begun.Some? && OwnerOf(begun.value) == OfQuery(q) && s'.outside.spawned[b] == begun.value)
    ensures begun.Some? && OwnerOf(begun.value) == OfQuery(q) ==> SpawnedFor(s'.outside.spawned, q, s.nextId)
  {
    hide Mirrors, Distinct, Except;
  }

  lemma RanOrEstimatedKept(s: State, s': State, ended: set<BusyId>, begun: Option<Task>, q: QueryId)
    requires BusyOk(s) && Works(s, s', ended, begun) && RanOrEstimated(s, q)
    requires begun.Some? ==> OwnerOf(begun.value) != OfQuery(q)
    requires q in s'.runs ==> q in s.runs
    requires HasRow(RecordsOf(s'), q) ==> HasRow(RecordsOf(s), q)
    requires q in s'.queries ==> q in s.queries && s'.queries[q].needsApproval == s.queries[q].needsApproval
    ensures RanOrEstimated(s', q)
  {
    hide Works, BusyOk, SpawnedFor, HasRow, RecordsOf;
    SpawnedAfter(s, s', ended, begun, q);
    SpawnedIs(s, q);
    SpawnedIs(s', q);
  }

  lemma SpawnedIs(s: State, q: QueryId)
    ensures forall b :: SpawnedFor(s.outside.spawned, q, b) ==> b in s.outside.spawned
  {
  }

  lemma RunsOf(s: State)
    ensures RecordsOf(s).runs == s.runs && RecordsOf(s).library == s.library
  {
  }

  lemma ElsewhereIsTidy(w: World, w': World, a: Action, issuer: Issuer, q: QueryId)
    requires BusyOk(w.s) && Tidy(w, q) && Elsewhere(a, q)
    requires w'.s == Apply(w.s, a, issuer) && w'.mailbox == w.mailbox && w'.received == w.received
    requires w'.answered == w.answered
    ensures Tidy(w', q)
  {
    hide RecordsOf, NoneForgotten, OneAtATime, Kept, Apply, Unfinished, RanOrEstimated, Works, Starts, Elsewhere,
         HasRow, RowOf, Orphans, CloseConn, Named;
    var ended, begun := ApplyWorks(w.s, a, issuer);
    if begun.Some? {
      StartsElsewhere(w.s, a, begun.value, q);
    }
    ApplyKeepsRecords(w.s, a, issuer, w.received, w.mailbox, w.answered, q);
    ApplyKeepsQuery(w.s, a, issuer, q);
    RunsOf(w.s);
    RunsOf(w'.s);
    RanOrEstimatedKept(w.s, w'.s, ended, begun, q);
  }

  /** A run begins for a query that has no row being written and none waiting. */
  lemma StartIsTidy(w: World, w': World, begun: Task, run: RunStart, q: QueryId)
    requires BusyOk(w.s) && Tidy(w, q) && Works(w.s, w'.s, {}, Some(begun)) && run.query == q
    requires OwnerOf(begun) == OfQuery(q) && !begun.Estimating?
    requires RecordsOf(w'.s) == StartOf(RecordsOf(w.s), run) && q !in w.s.runs
    requires forall b :: SpawnedFor(w.s.outside.spawned, q, b) ==> !w.s.outside.spawned[b].Estimating?
    requires q in w'.s.queries && w'.s.queries[q].data.Loading?
    requires w'.mailbox == w.mailbox && w'.received == w.received && w'.answered == w.answered
    ensures Tidy(w', q)
  {
    hide RecordsOf, NoneForgotten, OneAtATime, Works, HasRow, SpawnedFor, Unfinished, StartOf;
    RunsOf(w.s);
    StartForgetsNone(RecordsOf(w.s), run, w.received, w.mailbox, w.answered, q);
    StartIsKept(RecordsOf(w.s), run);
    SpawnedAfter(w.s, w'.s, {}, Some(begun), q);
    SpawnedIs(w.s, q);
    SpawnedIs(w'.s, q);
  }

  lemma StartIsKept(r: Records, run: RunStart)
    requires Kept(r)
    ensures Kept(StartOf(r, run))
  {
  }

  lemma NothingSpawned(w: World, q: QueryId)
    requires forall b :: b in w.s.outside.spawned ==> OwnerOf(w.s.outside.spawned[b]) != OfQuery(q)
    ensures forall b :: !SpawnedFor(w.s.outside.spawned, q, b)
  {
  }

  lemma NothingIsUnfinished(s: State, q: QueryId)
    requires q !in s.runs
    ensures !Unfinished(RecordsOf(s), q)
  {
  }

  lemma RunIsTidy(w: World, w': World, c: ConnId, q: QueryId, sql: string, issuer: Issuer)
    requires BusyOk(w.s) && Tidy(w, q) && w'.s == RunQuery(w.s, c, q, sql, issuer)
    requires w'.mailbox == w.mailbox && w'.received == w.received && w'.answered == w.answered
    requires q !in w.s.queries ==>
               forall b :: b in w.s.outside.spawned ==> OwnerOf(w.s.outside.spawned[b]) != OfQuery(q)
    ensures Tidy(w', q)
  {
    hide Tidy, RecordsOf, Works, RunQuery, StartOf, SpawnedFor;
    var begun := RunWorks(w.s, c, q, sql, issuer);
    if begun.None? {
      SameIsTidy(w, w', q);
    } else {
      NothingSpawned(w, q);
      NeverRan(w, q);
      RunRecords(w.s, c, q, sql, issuer);
      RunShows(w.s, c, q, sql, issuer);
      StartIsTidy(w, w', Run(q), RunStart(q, c, sql, issuer), q);
    }
  }

  lemma NeverRan(w: World, q: QueryId)
    requires Tidy(w, q) && forall b :: !SpawnedFor(w.s.outside.spawned, q, b)
    ensures q !in w.s.runs && !HasRow(RecordsOf(w.s), q)
  {
    hide RecordsOf, NoneForgotten, OneAtATime, Unfinished, SpawnedFor, HasRow;
  }

  lemma SameIsTidy(w: World, w': World, q: QueryId)
    requires Tidy(w, q) && w'.s == w.s
    requires w'.mailbox == w.mailbox && w'.received == w.received && w'.answered == w.answered
    ensures Tidy(w', q)
  {
    hide RecordsOf, NoneForgotten, OneAtATime, Unfinished, RanOrEstimated;
  }

  lemma EstimateIsTidy(w: World, w': World, c: ConnId, q: QueryId, sql: string)
    requires BusyOk(w.s) && Tidy(w, q) && w'.s == EstimateQuery(w.s, c, q, sql)
    requires w'.mailbox == w.mailbox && w'.received == w.received && w'.answered == w.answered
    requires q !in w.s.queries ==>
               forall b :: b in w.s.outside.spawned ==> OwnerOf(w.s.outside.spawned[b]) != OfQuery(q)
    ensures Tidy(w', q)
  {
    hide RecordsOf, NoneForgotten, OneAtATime, Works, EstimateQuery, Unfinished, SpawnedFor, HasRow, Kept;
    var begun := EstimateWorks(w.s, c, q, sql);
    if begun.None? {
      SameIsTidy(w, w', q);
    } else {
      NothingSpawned(w, q);
      NeverRan(w, q);
      QueryRecords(w.s, c, q, sql);
      RunsOf(w.s);
      RunsOf(w'.s);
      NothingIsUnfinished(w'.s, q);
      RunShows(w.s, c, q, sql, Human);
      SpawnedAfter(w.s, w'.s, {}, begun, q);
      SpawnedIs(w'.s, q);
    }
  }

  /** The run that a step records, when it begins one. */
  function RunBegun(w: World, step: Step): Option<RunStart>
    requires Enabled(w, step)
  {
    if step.Acted? then Begins(w.s.(applied := w.s.applied + 1), w.queue[0].0, w.queue[0].1) else None
  }

  /** No yes begins a second run of the query while a row of it is being written. */
  predicate Apart(w: World, step: Step, q: QueryId)
    requires Enabled(w, step)
  {
    step.Acted? && w.queue[0].0 == DoApprove(q) && RunBegun(w, step).Some? ==>
      && (forall row :: 0 <= row < |w.s.outside.started| && w.s.outside.started[row].query == q ==> row in w.answered)
      && forall i :: 0 <= i < |w.mailbox| && w.mailbox[i].Recorded? ==> w.mailbox[i].query != q
  }

  predicate NeverOverlaps(w: World, steps: seq<Step>, q: QueryId)
    requires Legal(w, steps)
    decreases |steps|
  {
    steps == [] || (Apart(w, steps[0], q) && NeverOverlaps(Next(w, steps[0]), steps[1..], q))
  }

  lemma NotBeingWritten(w: World, q: QueryId)
    requires Tidy(w, q)
    requires forall row :: 0 <= row < |w.s.outside.started| && w.s.outside.started[row].query == q ==> row in w.answered
    requires forall i :: 0 <= i < |w.mailbox| && w.mailbox[i].Recorded? ==> w.mailbox[i].query != q
    ensures !(q in w.s.runs && w.s.runs[q].Starting?)
  {
    hide NoneForgotten, RanOrEstimated, HasRow;
    assert !BeingWritten(RecordsOf(w.s), w.mailbox, w.answered, q);
  }

  lemma ApproveIsTidy(w: World, w': World, q: QueryId, issuer: Issuer)
    requires Sane(w) && QueryOk(w, q) && Tidy(w, q) && w'.s == ApproveQuery(w.s, q, issuer)
    requires w'.mailbox == w.mailbox && w'.received == w.received && w'.answered == w.answered
    requires Begins(w.s, DoApprove(q), issuer).Some? ==> !(q in w.s.runs && w.s.runs[q].Starting?)
    ensures Tidy(w', q)
  {
    hide Sane, RecordsOf, NoneForgotten, OneAtATime, Works, ApproveQuery, StartOf, SpawnedFor, HasRow, Outstanding,
         RunsFor;
    SaneHasRows(w);
    var begun := ApproveWorks(w.s, q, issuer);
    if begun.None? {
      SameIsTidy(w, w', q);
    } else {
      RunsOf(w.s);
      assert Begins(w.s, DoApprove(q), issuer).Some?;
      ApproveRecords(w.s, q, issuer);
      ApproveShows(w.s, q, issuer);
      SpawnedIs(w.s, q);
      StartIsTidy(w, w', begun.value, RunStart(q, w.s.queries[q].conn, w.s.queries[q].sql, issuer), q);
    }
  }

  lemma SaneHasRows(w: World)
    requires Sane(w)
    ensures BusyOk(w.s)
  {
    hide NothingStuck, MailGenuine, NoReplyLost;
    RowsOf(w.s);
  }

  lemma ApplyIsTidy(w: World, w': World, a: Action, issuer: Issuer, q: QueryId)
    requires Sane(w) && QueryOk(w, q) && Tidy(w, q) && w'.s == Apply(w.s, a, issuer)
    requires w'.mailbox == w.mailbox && w'.received == w.received && w'.answered == w.answered
    requires (a.DoRun? || a.DoEstimate?) && a.query == q && q !in w.s.queries ==>
               forall b :: b in w.s.outside.spawned ==> OwnerOf(w.s.outside.spawned[b]) != OfQuery(q)
    requires a == DoApprove(q) && Begins(w.s, a, issuer).Some? ==> !(q in w.s.runs && w.s.runs[q].Starting?)
    ensures Tidy(w', q)
  {
    hide Sane, Tidy, QueryOk, RunQuery, EstimateQuery, ApproveQuery, ConnectTo, Disconnect, OpenNode, PreviewTable,
         Describe, ForgetDefinition, SortPreview, LoadMore, ForgetPreview, ForgetQuery, SearchHistory, WithLibrary,
         Cancel;
    SaneHasRows(w);
    if Elsewhere(a, q) {
      ElsewhereIsTidy(w, w', a, issuer, q);
    } else if a.DoRun? {
      RunIsTidy(w, w', a.conn, q, a.sql, issuer);
    } else if a.DoEstimate? {
      EstimateIsTidy(w, w', a.conn, q, a.sql);
    } else {
      ApproveIsTidy(w, w', q, issuer);
    }
  }

  // ── a step of the loop that takes an event ──────────────────────────────

  lemma OtherMail(r: Records, received: seq<Event>, mailbox: seq<Event>, answered: set<RowId>, q: QueryId)
    requires mailbox != [] && !(mailbox[0].Recorded? && mailbox[0].query == q)
    requires NoneForgotten(r, received, q) && OneAtATime(r, mailbox, answered, q)
    ensures NoneForgotten(r, received + [mailbox[0]], q) && OneAtATime(r, mailbox[1..], answered, q)
  {
    hide ToldRows, Unanswered;
    var rest := mailbox[1..];
    forall i
      ensures Unread(rest, q, i) <==> Unread(mailbox, q, i + 1)
    {
    }
    forall i | Unread(mailbox, q, i)
      ensures Unread(rest, q, i - 1)
    {
    }
    assert BeingWritten(r, rest, answered, q) == BeingWritten(r, mailbox, answered, q);
    assert forall i :: 0 <= i < |received + [mailbox[0]]| ==>
      (received + [mailbox[0]])[i] == if i < |received| then received[i] else mailbox[0];
  }

  /** A row of another query is written. */
  lemma OtherWritten(r: Records, p: QueryId, written: Result<RowId, AppError>, received: seq<Event>,
                     mailbox: seq<Event>,
                     answered: set<RowId>, q: QueryId)
    requires p != q && NoneForgotten(r, received, q) && OneAtATime(r, mailbox, answered, q) && Kept(r)
    ensures KeepsRecords(r, WrittenOf(r, p, written), received, mailbox, answered, q)
  {
    hide ToldRows, Unread;
    var r' := WrittenOf(r, p, written);
    if written.Success? && p in r.runs && r.runs[p].Starting? && r.runs[p].outcome.Some? {
      MoreTold(r.(runs := r.runs - {p}), written.value, r.runs[p].outcome.value);
    }
    SameUnanswered(r, r', mailbox, answered, q);
    SameRowsOf(r, r', q);
  }

  lemma WrittenIsKept(r: Records, q: QueryId, written: Result<RowId, AppError>, received: seq<Event>,
                      mailbox: seq<Event>,
                      answered: set<RowId>)
    requires mailbox != [] && mailbox[0] == Recorded(q, written)
    requires NoneForgotten(r, received, q) && OneAtATime(r, mailbox, answered, q) && Kept(r)
    ensures KeepsRecords(r, WrittenOf(r, q, written), received + [mailbox[0]], mailbox[1..], answered, q)
  {
    hide NoneForgotten, OneAtATime, WrittenOf, HasRow;
    WrittenForgetsNone(r, q, written, received, mailbox, answered);
    KeysKept(r, WrittenOf(r, q, written));
    SameRowsOf(r, WrittenOf(r, q, written), q);
  }

  lemma HandleKeepsRecords(w: World, q: QueryId)
    requires Tidy(w, q) && w.mailbox != []
    ensures KeepsRecords(RecordsOf(w.s), RecordsOf(Handle(w.s, w.mailbox[0])), w.received + [w.mailbox[0]],
                         w.mailbox[1..],
                         w.answered, q)
    ensures w.mailbox[0].Ran? && w.mailbox[0].query == q && q in w.s.queries ==>
              !Unfinished(RecordsOf(Handle(w.s, w.mailbox[0])), q)
  {
    hide RecordsOf, NoneForgotten, OneAtATime, KeepsRecords, EndOf, WrittenOf, Handle, Kept, Unfinished, RanOrEstimated;
    var e := w.mailbox[0];
    var r := RecordsOf(w.s);
    HandleRecords(w.s, e);
    if e.Recorded? && e.query == q {
      WrittenIsKept(r, q, e.written, w.received, w.mailbox, w.answered);
    } else {
      OtherMail(r, w.received, w.mailbox, w.answered, q);
      SameKeeps(r, w.received + [e], w.mailbox[1..], w.answered, q);
      if e.Recorded? {
        OtherWritten(r, e.query, e.written, w.received + [e], w.mailbox[1..], w.answered, q);
      } else if e.Ran? && e.query in w.s.queries {
        EndKeeps(r, e.query, OutcomeOf(e.output), w.received + [e], w.mailbox[1..], w.answered, q);
      }
    }
  }

  lemma EstimatedWas(s: State, e: Event, q: QueryId)
    requires Genuine(s, e) && (e.Estimated? || e.Ran?) && e.query == q
    ensures SpawnedFor(s.outside.spawned, q, e.busy) && (s.outside.spawned[e.busy].Estimating? <==> e.Estimated?)
  {
  }

  /** What the query's own replies leave: a run that ended, or none that began. */
  lemma ReplyIsTidy(w: World, w': World, q: QueryId)
    requires BusyOk(w.s) && Tidy(w, q) && w.mailbox != [] && Genuine(w.s, w.mailbox[0])
    requires (w.mailbox[0].Ran? || w.mailbox[0].Estimated?) && w.mailbox[0].query == q
    requires w'.s == Handle(w.s, w.mailbox[0]) && w'.mailbox == w.mailbox[1..] && w'.answered == w.answered
    requires w'.received == w.received + [w.mailbox[0]]
    ensures Tidy(w', q)
  {
    hide RecordsOf, NoneForgotten, OneAtATime, Handle, Kept, SpawnedFor, HasRow, Genuine, Works, Touches, BusyOk;
    var e := w.mailbox[0];
    HandleKeepsRecords(w, q);
    EstimatedWas(w.s, e, q);
    ReplyAsks(w.s, e);
    HandleWorks(w.s, e);
    SpawnedAfter(w.s, w'.s, Ends(e), None, q);
    RunsOf(w.s);
    RunsOf(w'.s);
    SpawnedIs(w.s, q);
    SpawnedIs(w'.s, q);
    if e.Estimated? {
      NothingIsUnfinished(w'.s, q);
    }
  }

  lemma OtherEventIsTidy(w: World, w': World, q: QueryId)
    requires BusyOk(w.s) && Tidy(w, q) && w.mailbox != []
    requires !((w.mailbox[0].Ran? || w.mailbox[0].Estimated?) && w.mailbox[0].query == q)
    requires w'.s == Handle(w.s, w.mailbox[0]) && w'.mailbox == w.mailbox[1..] && w'.answered == w.answered
    requires w'.received == w.received + [w.mailbox[0]]
    ensures Tidy(w', q)
  {
    hide RecordsOf, NoneForgotten, OneAtATime, Handle, Kept, HasRow, Works, Unfinished, RanOrEstimated, BusyOk;
    var e := w.mailbox[0];
    HandleKeepsRecords(w, q);
    HandleWorks(w.s, e);
    RunsOf(w.s);
    RunsOf(w'.s);
    if e.Ran? || e.Estimated? {
      ReplyAsks(w.s, e);
      TouchedKeepsQuery(w.s, w'.s, OfQuery(e.query), q);
    } else {
      OtherEventsLeaveQueries(w.s, e);
    }
    RanOrEstimatedKept(w.s, w'.s, Ends(e), None, q);
  }

  // ── in every run ────────────────────────────────────────────────────────

  lemma MailIsTidy(w: World, w': World, e: Event, q: QueryId)
    requires Tidy(w, q) && w'.s == w.s && w'.mailbox == w.mailbox + [e] && w'.received == w.received
    requires if e.Recorded? then exists row :: Answers(w, w', e, row) else w'.answered == w.answered
    ensures Tidy(w', q)
  {
    hide RecordsOf, NoneForgotten, OneAtATime, Unfinished, RanOrEstimated, Answers;
    if e.Recorded? {
      var row :| Answers(w, w', e, row);
      AnswerArrives(w, w', e, row, q);
    } else {
      ReplyArrives(RecordsOf(w.s), w.mailbox, w.answered, e, q);
    }
  }

  predicate Answers(w: World, w': World, e: Event, row: RowId) {
    && row < |w.s.outside.started| && row !in w.answered && w'.answered == w.answered + {row}
    && e.Recorded? && e.query == w.s.outside.started[row].query
  }

  lemma ReplyArrives(r: Records, mailbox: seq<Event>, answered: set<RowId>, e: Event, q: QueryId)
    requires OneAtATime(r, mailbox, answered, q) && !e.Recorded?
    ensures OneAtATime(r, mailbox + [e], answered, q)
  {
    hide Unanswered;
    assert forall i :: Unread(mailbox + [e], q, i) <==> Unread(mailbox, q, i);
  }

  lemma AnswerArrives(w: World, w': World, e: Event, row: RowId, q: QueryId)
    requires OneAtATime(RecordsOf(w.s), w.mailbox, w.answered, q) && Answers(w, w', e, row)
    requires w'.s == w.s && w'.mailbox == w.mailbox + [e]
    ensures OneAtATime(RecordsOf(w'.s), w'.mailbox, w'.answered, q)
  {
    var r := RecordsOf(w.s);
    assert forall i :: Unread(w'.mailbox, q, i) <==> Unread(w.mailbox, q, i) || (i == |w.mailbox| && e.query == q);
    assert forall k: RowId :: Unanswered(r, w'.answered, q, k) <==> Unanswered(r, w.answered, q, k) && k != row;
    if e.query == q {
      assert Unanswered(r, w.answered, q, row);
      assert Unread(w'.mailbox, q, |w.mailbox|);
    } else {
      assert BeingWritten(r, w'.mailbox, w'.answered, q) == BeingWritten(r, w.mailbox, w.answered, q);
    }
  }

  lemma StepIsTidy(w: World, step: Step, q: QueryId)
    requires Sane(w) && QueryOk(w, q) && Tidy(w, q) && Enabled(w, step) && FreshId(w, step) && Apart(w, step, q)
    ensures Tidy(Next(w, step), q)
  {
    hide NothingStuck, MailGenuine, NoReplyLost, QueryOk, Tidy, Apply, Handle, Answers, RepliesTo;
    match step {
      case Dispatched(_, _) => SameIsTidy(w, Next(w, step), q);
      case Acted =>
        var w1 := w.(s := w.s.(applied := w.s.applied + 1));
        if w.queue[0].0 == DoApprove(q) && RunBegun(w, step).Some? {
          NotBeingWritten(w, q);
        }
        CountingIsSane(w);
        CountingIsTidy(w, q);
        CountingKeepsQuery(w, q);
        ApplyIsTidy(w1, Next(w, step), w.queue[0].0, w.queue[0].1, q);
      case Received =>
        SaneHasRows(w);
        if (w.mailbox[0].Ran? || w.mailbox[0].Estimated?) && w.mailbox[0].query == q {
          MailAhead(w.s, w.mailbox);
          ReplyIsTidy(w, Next(w, step), q);
        } else {
          OtherEventIsTidy(w, Next(w, step), q);
        }
      case Completed(e) =>
        ReplyIsNoRow(w, e);
        MailIsTidy(w, Next(w, step), e, q);
      case RowAnswered(row, failed) =>
        RowIsAnswered(w, row, failed);
        MailIsTidy(w, Next(w, step), RowReply(w, row, failed), q);
    }
  }

  lemma RowIsAnswered(w: World, row: RowId, failed: Option<AppError>)
    requires Enabled(w, RowAnswered(row, failed))
    ensures Answers(w, Next(w, RowAnswered(row, failed)), RowReply(w, row, failed), row)
  {
  }

  lemma CountingIsTidy(w: World, q: QueryId)
    requires Tidy(w, q)
    ensures Tidy(w.(s := w.s.(applied := w.s.applied + 1)), q)
  {
    hide NoneForgotten, OneAtATime, Unfinished, HasRow, RecordsOf, InMail;
    CountedRecords(w.s);
  }

  lemma CountingKeepsQuery(w: World, q: QueryId)
    requires Sane(w) && QueryOk(w, q)
    ensures QueryOk(w.(s := w.s.(applied := w.s.applied + 1)), q)
  {
    hide Sane, QueryOk, Works;
    var w1 := w.(s := w.s.(applied := w.s.applied + 1));
    QuietWorks(w.s, w1.s);
    QuietQuery(w, w1, {}, None, q);
  }

  lemma BegunIsTidy(g: Wiring, q: QueryId)
    ensures Tidy(Begun(g), q)
  {
  }
}
