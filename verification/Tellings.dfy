/**
 What one step tells the history about a query: which row is told, of which
 outcome, what is kept to be told later, and whose task the outcome is of.
 */
module Tellings {
  import opened Wrappers
  import opened Store
  import opened Runs
  import opened Rows
  import opened Frames
  import opened Loading
  import opened Queries
  import opened Recorder
  import opened HistoryLaws
  import opened Barrier

  // ── the records of one query ────────────────────────────────────────────

  /** An outcome is held until the row it is for has been written. */
  predicate Holds(r: Records, q: QueryId, outcome: RunOutcome) {
    q in r.runs && r.runs[q] == Starting(Some(outcome))
  }

  predicate HoldsOne(r: Records, q: QueryId) {
    q in r.runs && r.runs[q].Starting? && r.runs[q].outcome.Some?
  }

  /** The run waits with its row written, to be told when it ends. */
  predicate Knows(r: Records, q: QueryId, row: RowId) {
    q in r.runs && r.runs[q] == Written(row)
  }

  ghost predicate RowsFit(r: Records) {
    forall q, row :: Knows(r, q, row) ==> RowIsFor(r, row, q)
  }

  /**
   What a step is for a query: how a run of it ended, what was read of a row of
   it, and whether a run of it begins.
   */
  datatype Change = Change(ends: Option<RunOutcome>, read: Option<Result<RowId, AppError>>, begins: bool)

  const QUIET := Change(None, None, false)

  predicate Comes(r: Records, q: QueryId, ch: Change, outcome: RunOutcome) {
    ch.ends == Some(outcome) || Holds(r, q, outcome)
  }

  predicate Reaches(r: Records, q: QueryId, ch: Change, row: RowId) {
    ch.read == Some(Success(row)) || Knows(r, q, row)
  }

  /** Rows of the query are told only of an end that comes or was held, and only the row that arrives or was kept. */
  ghost predicate TellsOnly(r: Records, r': Records, q: QueryId, ch: Change) {
    && r.settled <= r'.settled
    && (forall k :: |r.settled| <= k < |r'.settled| && RowIsFor(r', r'.settled[k].0, q) ==>
          Comes(r, q, ch, r'.settled[k].1) && Reaches(r, q, ch, r'.settled[k].0))
    && (forall outcome :: Holds(r', q, outcome) ==> Comes(r, q, ch, outcome))
    && (forall row :: Knows(r', q, row) ==> Reaches(r, q, ch, row))
  }

  /**
   What a run holds until its row is read: the last of its ends, or what it held.
   What is held is told when its row has been written. A row is begun only with a
   run, which then holds nothing.
   */
  predicate KeepsHolding(r: Records, r': Records, q: QueryId, ch: Change) {
    && r.started <= r'.started && r'.library == r.library
    && (forall k :: |r.started| <= k < |r'.started| && r'.started[k].query == q ==> ch.begins)
    && (q in r.runs && r.runs[q].Starting? && !ch.begins && ch.read.None? ==>
          q in r'.runs && r'.runs[q] == if ch.ends.Some? then Starting(ch.ends) else r.runs[q])
    && (HoldsOne(r, q) && ch.read.Some? ==> q !in r'.runs)
    && (HoldsOne(r, q) && ch.read.Some? && ch.read.value.Success? && r.library ==>
          r'.settled == r.settled + [(ch.read.value.value, r.runs[q].outcome.value)])
    && (ch.begins && r.library ==>
          && r'.settled == r.settled && q in r'.runs && r'.runs[q] == Starting(None)
          && |r'.started| == |r.started| + 1 && r'.started[|r.started|].query == q)
  }

  ghost predicate Tells(r: Records, r': Records, q: QueryId, ch: Change) {
    TellsOnly(r, r', q, ch) && KeepsHolding(r, r', q, ch)
  }

  lemma NothingTells(r: Records, q: QueryId)
    ensures Tells(r, r, q, QUIET)
  {
  }

  function EndIn(p: QueryId, outcome: RunOutcome, q: QueryId): Change {
    if p == q then Change(Some(outcome), None, false) else QUIET
  }

  lemma EndTells(r: Records, p: QueryId, outcome: RunOutcome, q: QueryId)
    requires RowsFit(r)
    ensures Tells(r, EndOf(r, p, outcome), q, EndIn(p, outcome, q)) && RowsFit(EndOf(r, p, outcome))
  {
    if p in r.runs && r.runs[p].Written? {
      assert Knows(r, p, r.runs[p].row);
    }
    forall a, row | Knows(EndOf(r, p, outcome), a, row)
      ensures RowIsFor(EndOf(r, p, outcome), row, a)
    {
      assert Knows(r, a, row);
    }
  }

  lemma TellsTwice(r: Records, r1: Records, r2: Records, q: QueryId, ch: Change, ch1: Change, ch2: Change)
    requires Tells(r, r1, q, ch1) && Tells(r1, r2, q, ch2) && !ch.begins && ch.read.None?
    requires (ch1 == ch || ch1 == QUIET) && (ch2 == ch || ch2 == QUIET) && (ch1 == ch || ch2 == ch)
    ensures Tells(r, r2, q, ch)
  {
    forall k | |r.settled| <= k < |r2.settled| && RowIsFor(r2, r2.settled[k].0, q)
      ensures Comes(r, q, ch, r2.settled[k].1) && Reaches(r, q, ch, r2.settled[k].0)
    {
      if k < |r1.settled| {
        assert RowIsFor(r1, r1.settled[k].0, q);
      }
    }
  }

  /** One of the rows is for the query, and all the runs named end alike. */
  lemma {:induction false} EndAllTells(r: Records, rows: seq<BusyItem>, outcome: RunOutcome, q: QueryId)
    requires RowsFit(r)
    ensures Tells(r, EndAll(r, rows, outcome), q, if Named(rows, q) then Change(Some(outcome), None, false) else QUIET)
    decreases |rows|
  {
    hide EndOf, Tells, RowsFit;
    if rows == [] {
      NothingTells(r, q);
    } else {
      assert rows == [rows[0]] + rows[1..];
      if rows[0].owner.OfQuery? {
        var p := rows[0].owner.query;
        EndTells(r, p, outcome, q);
        EndAllTells(EndOf(r, p, outcome), rows[1..], outcome, q);
        TellsTwice(r, EndOf(r, p, outcome), EndAll(r, rows, outcome), q,
                   if Named(rows, q) then Change(Some(outcome), None, false) else QUIET, EndIn(p, outcome, q),
                   if Named(rows[1..], q) then Change(Some(outcome), None, false) else QUIET);
      } else {
        EndAllTells(r, rows[1..], outcome, q);
      }
    }
  }

  lemma StartTells(r: Records, run: RunStart, q: QueryId)
    requires RowsFit(r)
    ensures Tells(r, StartOf(r, run), q, Change(None, None, run.query == q))
  {
  }

  lemma WrittenTells(r: Records, p: QueryId, written: Result<RowId, AppError>, q: QueryId)
    requires RowsFit(r) && (written.Success? ==> RowIsFor(r, written.value, p))
    ensures Tells(r, WrittenOf(r, p, written), q, if p == q then Change(None, Some(written), false) else QUIET)
  {
  }

  // ── a step ──────────────────────────────────────────────────────────────

  /** What taking an action is for a query. */
  function ChangeByAction(s: State, a: Action, issuer: Issuer, q: QueryId): Change {
    match a
    case DoCancel(id) =>
      if RowOf(s.busy, id).Some? && RowOf(s.busy, id).value.owner == OfQuery(q)
      then Change(Some(RunCancelled), None, false)
      else QUIET
    case DoDisconnect(c) =>
      if Named(Orphans(CloseConn(s, c), s.busy, c), q)
      then Change(Some(RunFailed(DISCONNECTED)), None, false)
      else QUIET
    case _ =>
      var begins := Begins(s, a, issuer);
      Change(None, None, begins.Some? && begins.value.query == q)
  }

  /** What reading an event is for a query. */
  function ChangeByEvent(s: State, e: Event, q: QueryId): Change {
    match e
    case Ran(p, _, output) => if p == q && q in s.queries then Change(Some(OutcomeOf(output)), None, false) else QUIET
    case Recorded(p, written) => if p == q then Change(None, Some(written), false) else QUIET
    case _ => QUIET
  }

  function ChangeOf(w: World, step: Step, q: QueryId): Change
    requires Enabled(w, step)
  {
    match step
    case Acted => ChangeByAction(w.s.(applied := w.s.applied + 1), w.queue[0].0, w.queue[0].1, q)
    case Received => ChangeByEvent(w.s, w.mailbox[0], q)
    case _ => QUIET
  }

  lemma ActionTells(s: State, a: Action, issuer: Issuer, q: QueryId)
    requires RowsFit(RecordsOf(s))
    ensures Tells(RecordsOf(s), RecordsOf(Apply(s, a, issuer)), q, ChangeByAction(s, a, issuer, q))
  {
    hide RecordsOf, RowsFit, Tells, StartOf, EndOf, EndAll, RunQuery, ApproveQuery, Cancel, Disconnect, RowOf, Orphans,
         CloseConn, Begins, Apply, Named;
    var r := RecordsOf(s);
    Applied(s, a, issuer);
    NothingTells(r, q);
    if a.DoRun? || a.DoApprove? {
      if a.DoRun? {
        RunRecords(s, a.conn, a.query, a.sql, issuer);
      } else {
        ApproveRecords(s, a.query, issuer);
      }
      if Begins(s, a, issuer).Some? {
        StartTells(r, Begins(s, a, issuer).value, q);
      }
    } else if a.DoCancel? {
      CancelRecords(s, a.id);
      if RowOf(s.busy, a.id).Some? && RowOf(s.busy, a.id).value.owner.OfQuery? {
        EndTells(r, RowOf(s.busy, a.id).value.owner.query, RunCancelled, q);
      }
    } else if a.DoDisconnect? {
      DisconnectRecords(s, a.conn);
      EndAllTells(r, Orphans(CloseConn(s, a.conn), s.busy, a.conn), RunFailed(DISCONNECTED), q);
    } else {
      OtherRecords(s, a, issuer);
      NoOtherBegins(s, a, issuer);
    }
  }

  lemma NoOtherBegins(s: State, a: Action, issuer: Issuer)
    requires !a.DoRun? && !a.DoApprove?
    ensures Begins(s, a, issuer).None?
  {
  }

  lemma EventTells(s: State, e: Event, q: QueryId)
    requires RowsFit(RecordsOf(s))
    requires e.Recorded? && e.written.Success? ==> RowIsFor(RecordsOf(s), e.written.value, e.query)
    ensures Tells(RecordsOf(s), RecordsOf(Handle(s, e)), q, ChangeByEvent(s, e, q))
  {
    hide RecordsOf, RowsFit, Tells, EndOf, WrittenOf, Handle, OutcomeOf;
    HandleRecords(s, e);
    NothingTells(RecordsOf(s), q);
    if e.Recorded? {
      WrittenTells(RecordsOf(s), e.query, e.written, q);
    } else if e.Ran? && e.query in s.queries {
      EndTells(RecordsOf(s), e.query, OutcomeOf(e.output), q);
    }
  }

  lemma OwnRowsFit(r: Records, received: seq<Event>, mailbox: seq<Event>)
    requires OwnOutcomes(r, received, mailbox)
    ensures RowsFit(r)
    ensures mailbox != [] && mailbox[0].Recorded? && mailbox[0].written.Success? ==>
              RowIsFor(r, mailbox[0].written.value, mailbox[0].query)
  {
    hide Had;
  }

  /** Every step, whatever it is, tells the rows of a query no more than this, and holds for them just that. */
  lemma StepTells(w: World, step: Step, q: QueryId)
    requires Enabled(w, step) && OwnOutcomes(RecordsOf(w.s), w.received, w.mailbox)
    ensures Tells(RecordsOf(w.s), RecordsOf(Next(w, step).s), q, ChangeOf(w, step, q))
  {
    hide RecordsOf, RowsFit, Tells, OwnOutcomes, Apply, Handle, RepliesTo, ChangeByAction, ChangeByEvent;
    OwnRowsFit(RecordsOf(w.s), w.received, w.mailbox);
    CountedRecords(w.s);
    NothingTells(RecordsOf(w.s), q);
    match step {
      case Acted => ActionTells(w.s.(applied := w.s.applied + 1), w.queue[0].0, w.queue[0].1, q);
      case Received => EventTells(w.s, w.mailbox[0], q);
      case _ =>
    }
  }

  // ── whose outcome it is ─────────────────────────────────────────────────

  /**
   The run that this task does was over with this outcome: the task's own reply
   said so, or the task was cancelled, or its connection was closed; the last two
   by an action taken after the first `from` of them.
   */
  ghost predicate EndedBy(w: World, task: BusyId, conn: ConnId, from: nat, outcome: RunOutcome) {
    || (exists i :: 0 <= i < |w.received| && w.received[i].Ran? && w.received[i].busy == task
                    && OutcomeOf(w.received[i].output) == outcome)
    || (outcome == RunCancelled
        && exists k :: from <= k < w.s.applied && k < |w.log| && w.log[k].0 == DoCancel(task))
    || (outcome == RunFailed(DISCONNECTED)
        && exists k :: from <= k < w.s.applied && k < |w.log| && w.log[k].0 == DoDisconnect(conn))
  }

  lemma ReceivedGrows(w: World, step: Step)
    requires Enabled(w, step)
    ensures w.received <= Next(w, step).received
  {
    hide Apply, Handle, RepliesTo;
  }

  lemma StillEndedBy(w: World, step: Step, task: BusyId, conn: ConnId, from: nat, outcome: RunOutcome)
    requires InOrder(w) && Enabled(w, step) && EndedBy(w, task, conn, from, outcome)
    ensures EndedBy(Next(w, step), task, conn, from, outcome)
  {
    hide InOrder, Next, Enabled, OutcomeOf;
    ReceivedGrows(w, step);
    StepIsInOrder(w, step);
    var w' := Next(w, step);
    var given := if outcome == RunCancelled then DoCancel(task) else DoDisconnect(conn);
    if i :| 0 <= i < |w.received| && w.received[i].Ran? && w.received[i].busy == task
            && OutcomeOf(w.received[i].output) == outcome {
      assert w'.received[i] == w.received[i];
    } else if k :| from <= k < w.s.applied && k < |w.log| && w.log[k].0 == given {
      assert w'.log[k] == w.log[k];
    }
  }

  /** Where a query belongs. */
  predicate IsAt(s: State, q: QueryId, conn: ConnId) {
    q in s.queries ==> s.queries[q].conn == conn
  }

  /** What ends a run of a query is a task of it that was still to be heard from. */
  lemma EndingIsItsOwn(w: World, step: Step, q: QueryId, conn: ConnId, from: nat) returns (task: BusyId)
    requires Sane(w) && InOrder(w) && Enabled(w, step) && from <= w.s.applied && IsAt(w.s, q, conn)
    requires ChangeOf(w, step, q).ends.Some?
    ensures Outstanding(w, q, task) && EndedBy(Next(w, step), task, conn, from, ChangeOf(w, step, q).ends.value)
  {
    hide Sane, Apply, Handle, RepliesTo, OutcomeOf, RowOf, Orphans, CloseConn, Named, Outstanding, RunsFor, BusyOk;
    var w' := Next(w, step);
    if step.Received? {
      task := w.mailbox[0].busy;
      assert w'.received[|w.received|] == w.mailbox[0];
      RanWasOutstanding(w, q);
      return;
    }
    StepIsInOrder(w, step);
    SaneHasRows(w);
    assert w'.log[w.s.applied] == w.queue[0];
    match w.queue[0].0 {
      case DoCancel(id) =>
        task := id;
        TaskOfRow(w.s, id);
        TaskRunsFor(w.s, q, id);
      case DoDisconnect(c) =>
        task := OrphanRunsFor(w.s, q, c);
      case _ =>
    }
    RunningIsOutstanding(w, q, task);
  }

  lemma RanWasOutstanding(w: World, q: QueryId)
    requires Sane(w) && w.mailbox != [] && w.mailbox[0].Ran? && w.mailbox[0].query == q
    ensures Outstanding(w, q, w.mailbox[0].busy)
  {
    hide NothingStuck, NoReplyLost;
    assert Genuine(w.s, w.mailbox[0]);
    assert !w.mailbox[0].Recorded?;
  }

  lemma TaskRunsFor(s: State, q: QueryId, id: BusyId)
    requires id in s.tasks && OwnerOf(s.tasks[id]) == OfQuery(q)
    ensures RunsFor(s, q, id)
  {
  }

  lemma OrphanRunsFor(s: State, q: QueryId, c: ConnId) returns (task: BusyId)
    requires BusyOk(s)
    requires var s1 := s.(applied := s.applied + 1); Named(Orphans(CloseConn(s1, c), s1.busy, c), q)
    ensures RunsFor(s, q, task) && q in s.queries && s.queries[q].conn == c
  {
    hide BusyOk, Orphans, CloseConn;
    var s1 := s.(applied := s.applied + 1);
    CloseConnKeeps(s1, c);
    OrphansBelong(CloseConn(s1, c), s1.busy, c);
    var row :| row in Orphans(CloseConn(s1, c), s1.busy, c) && row.owner == OfQuery(q);
    var i :| 0 <= i < |s.busy| && s.busy[i] == row;
    task := row.id;
    RowTask(s, i);
  }
}
