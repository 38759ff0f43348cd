/**
 Whose outcome a history row is told. Each row is told how its own run ended, as
 long as no approval begins a run while the row before it is being written; and
 that condition is exact.
 */
module Attribution {
  import opened Wrappers
  import opened Store
  import opened Runs
  import opened Rows
  import opened Frames
  import opened Loading
  import opened Sessions
  import opened Queries
  import opened Recorder
  import opened HistoryLaws
  import opened Barrier
  import opened Tellings
  import Consent

  // ── what holds in every state ───────────────────────────────────────────

  ghost predicate Sound(w: World) {
    && Sane(w) && SessionsOk(w) && QueriesOk(w) && InOrder(w)
    && OwnOutcomes(RecordsOf(w.s), w.received, w.mailbox)
    && OneOutcome(RecordsOf(w.s), w.mailbox, w.answered)
  }

  lemma StepIsSound(w: World, step: Step)
    requires Sound(w) && Enabled(w, step) && FreshId(w, step)
    ensures Sound(Next(w, step))
  {
    hide Sane, SessionsOk, QueriesOk, InOrder, OwnOutcomes, OneOutcome, RecordsOf, Next, Enabled, FreshId;
    StepIsSane(w, step);
    SessionsStepOk(w, step);
    QueriesStepOk(w, step);
    StepIsInOrder(w, step);
    StepIsOwn(w, step);
    StepKeepsOne(w, step);
  }

  lemma BegunIsSound(g: Wiring)
    ensures Sound(Begun(g))
  {
    hide Sane, SessionsOk, QueriesOk, OwnOutcomes, OneOutcome, RecordsOf;
    BegunIsSane(g);
    BegunSessionsOk(g);
    BegunQueriesOk(g);
    BegunIsOwn(g);
    BegunKeepsOne(g);
  }

  lemma {:induction false} RunIsSound(w: World, steps: seq<Step>)
    requires Sound(w) && Legal(w, steps) && NeverReused(w, steps)
    ensures Sound(After(w, steps))
    decreases |steps|
  {
    hide Sound, Next, Enabled, FreshId;
    if steps != [] {
      StepIsSound(w, steps[0]);
      RunIsSound(Next(w, steps[0]), steps[1..]);
    }
  }

  lemma TidyStep(w: World, step: Step, q: QueryId)
    requires Sound(w) && Tidy(w, q) && Enabled(w, step) && FreshId(w, step) && Apart(w, step, q)
    ensures Tidy(Next(w, step), q)
  {
    hide Sane, SessionsOk, QueryOk, InOrder, OwnOutcomes, OneOutcome, RecordsOf, Next, Enabled, FreshId, Apart, Tidy;
    assert QueryOk(w, q);
    StepIsTidy(w, step, q);
  }

  /** A run of the whole system in which query ids are used once and runs of the query do not overlap. */
  predicate Orderly(w: World, steps: seq<Step>, q: QueryId) {
    Legal(w, steps) && NeverReused(w, steps) && NeverOverlaps(w, steps, q)
  }

  /** What is there after it. */
  lemma {:induction false} OrderlyIsTidy(w: World, steps: seq<Step>, q: QueryId)
    requires Sound(w) && Tidy(w, q) && Orderly(w, steps, q)
    ensures Sound(After(w, steps)) && Tidy(After(w, steps), q)
    decreases |steps|
  {
    hide Sound, Tidy, Next, Enabled, FreshId, Apart;
    if steps != [] {
      StepIsSound(w, steps[0]);
      TidyStep(w, steps[0], q);
      OrderlyIsTidy(Next(w, steps[0]), steps[1..], q);
    }
  }

  // ── the tasks of a query ────────────────────────────────────────────────

  /** A step that begins to estimate the query. */
  predicate Estimates(w: World, step: Step, q: QueryId)
    requires Enabled(w, step)
  {
    step.Acted? && w.queue[0].0.DoEstimate? && w.queue[0].0.query == q && q !in w.s.queries
  }

  lemma StartsIts(s: State, a: Action, issuer: Issuer, t: Task, q: QueryId)
    requires Starts(s, a, t) && OwnerOf(t) == OfQuery(q)
    ensures ChangeByAction(s, a, issuer, q).begins || (a.DoEstimate? && a.query == q && q !in s.queries)
  {
  }

  lemma CountingIsNoReply(w: World, w': World, q: QueryId)
    requires w' == w.(s := w.s.(applied := w.s.applied + 1))
    ensures forall b :: Outstanding(w', q, b) == Outstanding(w, q, b)
  {
  }

  lemma ActedOutstanding(w: World, q: QueryId)
    requires Sane(w) && Enabled(w, Acted)
    ensures forall b :: Outstanding(Next(w, Acted), q, b) ==>
              Outstanding(w, q, b)
              || (b == w.s.nextId && (ChangeOf(w, Acted, q).begins || Estimates(w, Acted, q)))
  {
    hide Sane, Works, Apply, Outstanding, RunsFor, Starts, ChangeByAction, InMail;
    var s, a, issuer := w.s.(applied := w.s.applied + 1), w.queue[0].0, w.queue[0].1;
    var w1, w' := w.(s := s), Next(w, Acted);
    CountingIsSane(w);
    CountingIsNoReply(w, w1, q);
    var ended, begun := ApplyWorks(s, a, issuer);
    OutstandingBefore(w1, w', ended, begun, q);
    if begun.Some? && OwnerOf(begun.value) == OfQuery(q) {
      StartsIts(s, a, issuer, begun.value, q);
    }
  }

  lemma ReceivedOutstanding(w: World, q: QueryId)
    requires Sane(w) && Enabled(w, Received)
    ensures forall b :: Outstanding(Next(w, Received), q, b) ==> Outstanding(w, q, b)
  {
    hide Sane, Works, Handle, Outstanding, RunsFor, NoMoreMail;
    TakingMail(w, Next(w, Received));
    HandleWorks(w.s, w.mailbox[0]);
    OutstandingBefore(w, Next(w, Received), Ends(w.mailbox[0]), None, q);
  }

  /** Only a run that begins, or an estimate, is one more task to hear from. */
  lemma StepOutstanding(w: World, step: Step, q: QueryId)
    requires Sane(w) && Enabled(w, step)
    ensures forall b :: Outstanding(Next(w, step), q, b) ==>
              Outstanding(w, q, b)
              || (b == w.s.nextId && (ChangeOf(w, step, q).begins || Estimates(w, step, q)))
  {
    hide Sane, Apply, Handle, ChangeByAction, ChangeByEvent;
    match step {
      case Acted =>
        hide Outstanding;
        ActedOutstanding(w, q);
      case Received =>
        hide Outstanding;
        ReceivedOutstanding(w, q);
      case Completed(e) => ArrivalOutstanding(w, Next(w, step), e, q);
      case RowAnswered(row, failed) => ArrivalOutstanding(w, Next(w, step), RowReply(w, row, failed), q);
      case Dispatched(_, _) =>
    }
  }

  lemma StepSpawned(w: World, step: Step, q: QueryId, task: BusyId)
    requires Sane(w) && Enabled(w, step) && SpawnedFor(w.s.outside.spawned, q, task)
    ensures SpawnedFor(Next(w, step).s.outside.spawned, q, task)
    ensures !Estimates(w, step, q) || !FreshId(w, step)
    ensures task < w.s.nextId
  {
    hide NothingStuck, MailGenuine, NoReplyLost, Works, Apply, Handle, RepliesTo, Mirrors, Distinct;
    SaneHasRows(w);
    match step {
      case Acted =>
        var s := w.s.(applied := w.s.applied + 1);
        var ended, begun := ApplyWorks(s, w.queue[0].0, w.queue[0].1);
        SpawnedStays(s, Next(w, step).s, ended, begun);
      case Received =>
        HandleWorks(w.s, w.mailbox[0]);
        SpawnedStays(w.s, Next(w, step).s, Ends(w.mailbox[0]), None);
      case _ =>
    }
  }

  // ── where a query belongs ───────────────────────────────────────────────

  /**
   A query that is there belongs where it did; it loads only if it did or is
   begun, and not when a run of it has ended.
   */
  predicate StaysPut(s: State, s': State, q: QueryId, ch: Change) {
    q in s'.queries ==>
      && q in s.queries && s'.queries[q].conn == s.queries[q].conn
      && (s'.queries[q].data.Loading? ==> ch.ends.None? && (ch.begins || s.queries[q].data.Loading?))
  }

  lemma ApplyLeavesIt(s: State, a: Action, issuer: Issuer, q: QueryId)
    requires (a.DoRun? || a.DoEstimate?) && a.query == q ==> q in s.queries
    ensures StaysPut(s, Apply(s, a, issuer), q, ChangeByAction(s, a, issuer, q))
  {
    hide Disconnect, RunQuery, EstimateQuery, ApproveQuery, ForgetQuery, Cancel, Touches, Apply, RowOf, Orphans, Named,
         CloseConn, SameBut, Begins;
    Applied(s, a, issuer);
    if a.DoDisconnect? {
      DisconnectShows(s, a.conn);
    } else if a.DoCancel? {
      CancelLeavesIt(s, a.id, q);
    } else if (a.DoRun? || a.DoEstimate?) && a.query == q {
      Consent.NoRun(s, a.conn, q, a.sql, issuer);
    } else if a == DoApprove(q) {
      ApproveLeavesIt(s, q, issuer);
    } else if a == DoForgetQuery(q) {
      ForgetLeavesIt(s, q);
    } else {
      ApplyTouches(s, a, issuer);
      TouchedLeavesIt(s, Apply(s, a, issuer), Subject(s, a), q, ChangeByAction(s, a, issuer, q).begins);
    }
  }

  lemma TouchedLeavesIt(s: State, s': State, o: Owner, q: QueryId, begins: bool)
    requires Touches(s, s', o) && o != OfQuery(q)
    ensures forall read :: StaysPut(s, s', q, Change(None, read, begins))
  {
  }

  lemma CancelLeavesIt(s: State, id: BusyId, q: QueryId)
    ensures StaysPut(s, Cancel(s, id), q, ChangeByAction(s, DoCancel(id), Human, q))
  {
    hide Cancel, Touches, RowOf;
    CancelShows(s, id);
    if Subject(s, DoCancel(id)) != OfQuery(q) {
      TouchedLeavesIt(s, Cancel(s, id), Subject(s, DoCancel(id)), q, false);
    }
  }

  lemma ApproveLeavesIt(s: State, q: QueryId, issuer: Issuer)
    ensures StaysPut(s, ApproveQuery(s, q, issuer), q, ChangeByAction(s, DoApprove(q), issuer, q))
  {
    hide ApproveQuery;
    if q in s.queries && SessionOf(s, s.queries[q].conn).Some? && s.queries[q].needsApproval.Some? {
      ApproveShows(s, q, issuer);
    } else {
      Consent.NoApproval(s, q, issuer);
    }
  }

  lemma ForgetLeavesIt(s: State, q: QueryId)
    ensures forall ch :: StaysPut(s, ForgetQuery(s, q), q, ch)
  {
    hide DropAll;
  }

  lemma HandleLeavesIt(s: State, e: Event, q: QueryId)
    ensures StaysPut(s, Handle(s, e), q, ChangeByEvent(s, e, q))
  {
    hide Handle, Touches, OutcomeOf;
    if e.Ran? || e.Estimated? {
      ReplyAsks(s, e);
      if e.query != q {
        TouchedLeavesIt(s, Handle(s, e), OfQuery(e.query), q, false);
      }
    } else {
      OtherEventsLeaveQueries(s, e);
    }
  }

  lemma StepLeavesIt(w: World, step: Step, q: QueryId, task: BusyId)
    requires Enabled(w, step) && FreshId(w, step) && SpawnedFor(w.s.outside.spawned, q, task)
    ensures StaysPut(w.s, Next(w, step).s, q, ChangeOf(w, step, q))
  {
    hide Apply, Handle, RepliesTo, ChangeByAction, ChangeByEvent;
    match step {
      case Acted => ApplyLeavesIt(w.s.(applied := w.s.applied + 1), w.queue[0].0, w.queue[0].1, q);
      case Received => HandleLeavesIt(w.s, w.mailbox[0], q);
      case _ =>
    }
  }

  // ── a run and its row ───────────────────────────────────────────────────

  /** A run of a query: its row, its task, where it is sent, and how many actions had been taken when it had begun. */
  datatype Attempt = Attempt(query: QueryId, row: RowId, task: BusyId, conn: ConnId, from: nat)

  /** What was begun by this step. */
  function AttemptOf(w: World, step: Step): Attempt
    requires Enabled(w, step) && RunBegun(w, step).Some?
  {
    Attempt(RunBegun(w, step).value.query, |w.s.outside.started|, w.s.nextId, RunBegun(w, step).value.conn,
            w.s.applied + 1)
  }

  ghost predicate OfAttempt(w: World, a: Attempt, outcome: RunOutcome) {
    EndedBy(w, a.task, a.conn, a.from, outcome)
  }

  /** It is of the attempt, or of one begun since. */
  ghost predicate OfAttemptOrLater(w: World, a: Attempt, outcome: RunOutcome) {
    exists task: BusyId :: task >= a.task && EndedBy(w, task, a.conn, a.from, outcome)
  }

  /** What the library says of the row has yet to be read. */
  predicate Awaiting(w: World, row: RowId) {
    row !in w.answered || exists i :: 0 <= i < |w.mailbox| && Carries(w.mailbox[i], row)
  }

  /** Nothing more will be told to the row. */
  predicate Over(w: World, q: QueryId, row: RowId) {
    && RowIsFor(RecordsOf(w.s), row, q)
    && !Awaiting(w, row) && !Knows(RecordsOf(w.s), q, row)
  }

  /** The attempt is the query's last. */
  ghost predicate IsLast(w: World, a: Attempt) {
    forall row :: a.row < row < |w.s.outside.started| ==> w.s.outside.started[row].query != a.query
  }

  ghost predicate Placed(w: World, a: Attempt) {
    && w.s.library && RowIsFor(RecordsOf(w.s), a.row, a.query)
    && SpawnedFor(w.s.outside.spawned, a.query, a.task)
    && a.from <= w.s.applied && IsAt(w.s, a.query, a.conn)
  }

  /**
   While the attempt is the last, all that is to be heard or told of the query is
   of it; afterwards its row is over.
   */
  ghost predicate Follows(w: World, a: Attempt) {
    && Placed(w, a)
    && (forall k :: 0 <= k < |w.s.outside.settled| && w.s.outside.settled[k].0 == a.row ==>
          OfAttempt(w, a, w.s.outside.settled[k].1))
    && (if IsLast(w, a)
        then
          && (forall b: BusyId :: Outstanding(w, a.query, b) ==> b == a.task)
          && (forall outcome :: Holds(RecordsOf(w.s), a.query, outcome) ==> OfAttempt(w, a, outcome))
        else Over(w, a.query, a.row))
  }

  /**
   Since so many were told, whatever a row of the query was told is an outcome of
   the attempt or of one begun since.
   */
  ghost predicate ToldSinceAreOfLater(w: World, a: Attempt, told: nat) {
    forall k :: told <= k < |w.s.outside.settled| && RowIsFor(RecordsOf(w.s), w.s.outside.settled[k].0, a.query) ==>
      OfAttemptOrLater(w, a, w.s.outside.settled[k].1)
  }

  /** From the attempt on, all that is to be heard or told of the query is of it or later. */
  ghost predicate Succeeds(w: World, a: Attempt, told: nat) {
    && Placed(w, a) && told <= |w.s.outside.settled|
    && ToldSinceAreOfLater(w, a, told)
    && (forall b: BusyId :: Outstanding(w, a.query, b) ==> b >= a.task)
    && (forall outcome :: Holds(RecordsOf(w.s), a.query, outcome) ==> OfAttemptOrLater(w, a, outcome))
  }

  lemma RowStays(r: Records, r': Records, row: RowId, q: QueryId)
    requires r.started <= r'.started
    ensures RowIsFor(r, row, q) ==> RowIsFor(r', row, q)
    ensures row < |r.started| ==> RowIsFor(r', row, q) == RowIsFor(r, row, q)
  {
  }

  lemma PlacedStep(w: World, step: Step, a: Attempt)
    requires Sound(w) && Placed(w, a) && Enabled(w, step) && FreshId(w, step)
    ensures Placed(Next(w, step), a)
  {
    hide Sane, SessionsOk, QueriesOk, OwnOutcomes, OneOutcome, Next, Enabled, FreshId, TellsOnly, SpawnedFor, InOrder,
         ChangeOf;
    var w' := Next(w, step);
    StepTells(w, step, a.query);
    StepSpawned(w, step, a.query, a.task);
    StepLeavesIt(w, step, a.query, a.task);
    StepIsInOrder(w, step);
    RowStays(RecordsOf(w.s), RecordsOf(w'.s), a.row, a.query);
  }

  /** Mail about a row comes once, from the library. */
  lemma AwaitingStep(w: World, step: Step, row: RowId)
    requires Enabled(w, step) && !Awaiting(w, row)
    ensures !Awaiting(Next(w, step), row)
  {
    hide Apply, Handle, RepliesTo;
    var w' := Next(w, step);
    match step {
      case Received => assert forall i :: 0 <= i < |w'.mailbox| ==> w'.mailbox[i] == w.mailbox[i + 1];
      case Completed(e) =>
        ReplyIsNoRow(w, e);
        assert forall i :: 0 <= i < |w'.mailbox| ==> w'.mailbox[i] == if i < |w.mailbox| then w.mailbox[i] else e;
      case RowAnswered(other, failed) =>
        assert forall i :: 0 <= i < |w'.mailbox| ==>
          w'.mailbox[i] == if i < |w.mailbox| then w.mailbox[i] else RowReply(w, other, failed);
      case _ =>
    }
  }

  lemma NotRead(w: World, step: Step, q: QueryId, row: RowId)
    requires Enabled(w, step) && !Awaiting(w, row)
    ensures ChangeOf(w, step, q).read != Some(Success(row))
  {
    hide Begins, Orphans, Named, RowOf, CloseConn;
    if step.Received? && w.mailbox[0].Recorded? {
      assert !Carries(w.mailbox[0], row);
    }
  }

  /** A row that is over stays over, and is told nothing. */
  lemma OverStep(w: World, step: Step, q: QueryId, row: RowId)
    requires Sound(w) && Over(w, q, row) && Enabled(w, step)
    ensures Over(Next(w, step), q, row)
    ensures w.s.outside.settled <= Next(w, step).s.outside.settled
    ensures forall k :: |w.s.outside.settled| <= k < |Next(w, step).s.outside.settled| ==>
              Next(w, step).s.outside.settled[k].0 != row
  {
    hide Sane, SessionsOk, QueriesOk, OwnOutcomes, OneOutcome, Next, Enabled, InOrder, ChangeOf, RecordsOf, Awaiting;
    var w' := Next(w, step);
    StepTells(w, step, q);
    AwaitingStep(w, step, row);
    NotRead(w, step, q, row);
    StartedOf(w.s);
    StartedOf(w'.s);
    RowStays(RecordsOf(w.s), RecordsOf(w'.s), row, q);
  }

  lemma BeginsIs(w: World, step: Step, q: QueryId)
    requires Enabled(w, step)
    ensures ChangeOf(w, step, q).begins <==> RunBegun(w, step).Some? && RunBegun(w, step).value.query == q
  {
    hide Orphans, Named, RowOf, CloseConn;
  }

  /** When a run of the query begins, no row of it is being written, and none waits for its run to end. */
  lemma RunsApart(w: World, step: Step, q: QueryId, row: RowId)
    requires Sound(w) && Tidy(w, q) && Enabled(w, step) && FreshId(w, step) && Apart(w, step, q)
    requires ChangeOf(w, step, q).begins && RowIsFor(RecordsOf(w.s), row, q)
    ensures Over(w, q, row)
  {
    hide Sane, SessionsOk, InOrder, OneOutcome, OneAtATime, NoneForgotten, RanOrEstimated, ChangeOf, Outstanding,
         RunsFor, Had;
    BeginsIs(w, step, q);
    if w.queue[0].0.DoRun? {
      NothingSpawned(w, q);
      NeverRan(w, q);
      assert false;
    }
    assert QueryOk(w, q);
    CarriesItsOwn(w, q, row);
  }

  lemma CarriesItsOwn(w: World, q: QueryId, row: RowId)
    requires OwnOutcomes(RecordsOf(w.s), w.received, w.mailbox) && RowIsFor(RecordsOf(w.s), row, q)
    ensures forall i :: 0 <= i < |w.mailbox| && Carries(w.mailbox[i], row) ==> w.mailbox[i].query == q
  {
    hide Had;
    forall i | 0 <= i < |w.mailbox| && Carries(w.mailbox[i], row)
      ensures w.mailbox[i].query == q
    {
      assert RowIsFor(RecordsOf(w.s), row, w.mailbox[i].query);
    }
  }

  lemma StillOfAttempt(w: World, step: Step, a: Attempt)
    requires InOrder(w) && Enabled(w, step)
    ensures forall outcome :: OfAttempt(w, a, outcome) ==> OfAttempt(Next(w, step), a, outcome)
    ensures forall outcome :: OfAttemptOrLater(w, a, outcome) ==> OfAttemptOrLater(Next(w, step), a, outcome)
  {
    hide InOrder, Next, Enabled, EndedBy;
    forall outcome, task | EndedBy(w, task, a.conn, a.from, outcome)
      ensures EndedBy(Next(w, step), task, a.conn, a.from, outcome)
    {
      StillEndedBy(w, step, task, a.conn, a.from, outcome);
    }
  }

  /** No run begins: what there is to hear and to tell is still of the attempt. */
  lemma LastStep(w: World, step: Step, a: Attempt)
    requires Sound(w) && Follows(w, a) && IsLast(w, a) && Enabled(w, step) && FreshId(w, step)
    requires !ChangeOf(w, step, a.query).begins
    ensures Follows(Next(w, step), a)
  {
    hide Sane, SessionsOk, QueriesOk, OwnOutcomes, OneOutcome, Next, Enabled, FreshId, InOrder, ChangeOf, EndedBy,
         Placed, Outstanding, SpawnedFor, Holds, Knows, RecordsOf;
    var w', q := Next(w, step), a.query;
    PlacedStep(w, step, a);
    PlacedIs(w, a);
    PlacedIs(w', a);
    StepTells(w, step, q);
    StepOutstanding(w, step, q);
    StepSpawned(w, step, q, a.task);
    StillOfAttempt(w, step, a);
    StartedOf(w.s);
    StartedOf(w'.s);
    if ChangeOf(w, step, q).ends.Some? {
      var task := EndingIsItsOwn(w, step, q, a.conn, a.from);
      assert OfAttempt(w', a, ChangeOf(w, step, q).ends.value);
    }
    forall outcome | Comes(RecordsOf(w.s), q, ChangeOf(w, step, q), outcome)
      ensures OfAttempt(w', a, outcome)
    {
    }
  }

  lemma PlacedIs(w: World, a: Attempt)
    requires Placed(w, a)
    ensures SpawnedFor(w.s.outside.spawned, a.query, a.task) && RowIsFor(RecordsOf(w.s), a.row, a.query)
    ensures a.from <= w.s.applied && IsAt(w.s, a.query, a.conn)
  {
  }

  lemma FollowsStep(w: World, step: Step, a: Attempt)
    requires Sound(w) && Tidy(w, a.query) && Enabled(w, step) && FreshId(w, step) && Apart(w, step, a.query)
    requires Follows(w, a)
    ensures Follows(Next(w, step), a)
  {
    hide Sane, SessionsOk, QueriesOk, OwnOutcomes, OneOutcome, Next, Enabled, FreshId, Apart, InOrder, ChangeOf,
         EndedBy, Placed, Outstanding, Holds, Over, RecordsOf, Tidy, TellsOnly;
    var w', q := Next(w, step), a.query;
    if IsLast(w, a) && !ChangeOf(w, step, q).begins {
      LastStep(w, step, a);
    } else {
      PlacedStep(w, step, a);
      PlacedIs(w, a);
      if IsLast(w, a) {
        RunsApart(w, step, q, a.row);
      }
      OverStep(w, step, q, a.row);
      NotLastStep(w, step, a);
      StillOfAttempt(w, step, a);
    }
  }

  lemma NotLastStep(w: World, step: Step, a: Attempt)
    requires Sound(w) && Placed(w, a) && Enabled(w, step) && (!IsLast(w, a) || ChangeOf(w, step, a.query).begins)
    ensures !IsLast(Next(w, step), a)
  {
    hide Sane, SessionsOk, QueriesOk, OwnOutcomes, OneOutcome, Next, Enabled, InOrder, ChangeOf, TellsOnly, SpawnedFor,
         RecordsOf;
    StepTells(w, step, a.query);
    StartedOf(w.s);
    StartedOf(Next(w, step).s);
    LibraryOf(w.s);
  }

  lemma LibraryOf(s: State)
    ensures RecordsOf(s).library == s.library
  {
  }

  lemma {:induction false} RunFollows(w: World, steps: seq<Step>, a: Attempt)
    requires Sound(w) && Tidy(w, a.query) && Orderly(w, steps, a.query) && Follows(w, a)
    ensures Follows(After(w, steps), a)
    decreases |steps|
  {
    hide Sound, Tidy, Next, Enabled, FreshId, Apart, Follows;
    if steps != [] {
      FollowsStep(w, steps[0], a);
      StepIsSound(w, steps[0]);
      TidyStep(w, steps[0], a.query);
      RunFollows(Next(w, steps[0]), steps[1..], a);
    }
  }

  lemma {:induction false} RunIsOver(w: World, steps: seq<Step>, q: QueryId, row: RowId)
    requires Sound(w) && Legal(w, steps) && NeverReused(w, steps) && Over(w, q, row)
    ensures var w' := After(w, steps);
            && w.s.outside.settled <= w'.s.outside.settled
            && forall k :: |w.s.outside.settled| <= k < |w'.s.outside.settled| ==> w'.s.outside.settled[k].0 != row
    decreases |steps|
  {
    hide Sound, Next, Enabled, FreshId, Over;
    if steps != [] {
      OverStep(w, steps[0], q, row);
      StepIsSound(w, steps[0]);
      RunIsOver(Next(w, steps[0]), steps[1..], q, row);
    }
  }

  // ── where an attempt begins ─────────────────────────────────────────────

  lemma RunSpawns(s: State, c: ConnId, q: QueryId, sql: string, issuer: Issuer)
    requires SessionOf(s, c).Some? && q !in s.queries
    ensures RunQuery(s, c, q, sql, issuer).outside.spawned == s.outside.spawned[s.nextId := Run(q)]
  {
  }

  lemma ApproveSpawns(s: State, q: QueryId, issuer: Issuer)
    requires q in s.queries && SessionOf(s, s.queries[q].conn).Some? && s.queries[q].needsApproval.Some?
    ensures ApproveQuery(s, q, issuer).outside.spawned ==
            s.outside.spawned[s.nextId := RunOver(q, s.queries[q].needsApproval.value)]
  {
  }

  lemma SpawnsFor(spawned: map<BusyId, Task>, task: BusyId, t: Task, q: QueryId)
    requires OwnerOf(t) == OfQuery(q)
    ensures SpawnedFor(spawned[task := t], q, task)
  {
  }

  /** What a step that begins a run of a query does to it. */
  lemma BegunShows(w: World, step: Step)
    requires Enabled(w, step) && RunBegun(w, step).Some?
    ensures var a, s' := AttemptOf(w, step), Next(w, step).s;
            IsAt(s', a.query, a.conn) && SpawnedFor(s'.outside.spawned, a.query, a.task)
  {
    hide Apply, RunQuery, ApproveQuery, SpawnedFor;
    var s, action, issuer := w.s.(applied := w.s.applied + 1), w.queue[0].0, w.queue[0].1;
    Applied(s, action, issuer);
    var q := RunBegun(w, step).value.query;
    if action.DoRun? {
      RunShows(s, action.conn, q, action.sql, issuer);
      RunSpawns(s, action.conn, q, action.sql, issuer);
      SpawnsFor(s.outside.spawned, s.nextId, Run(q), q);
    } else {
      ApproveShows(s, q, issuer);
      ApproveSpawns(s, q, issuer);
      SpawnsFor(s.outside.spawned, s.nextId, RunOver(q, s.queries[q].needsApproval.value), q);
    }
  }

  lemma NobodyElse(w: World, step: Step, q: QueryId)
    requires QueryOk(w, q) && Enabled(w, step) && FreshId(w, step) && ChangeOf(w, step, q).begins
    ensures forall b :: !Outstanding(w, q, b)
    ensures !Estimates(w, step, q)
  {
    hide Outstanding, ChangeOf;
    BeginsIs(w, step, q);
    if w.queue[0].0.DoRun? {
      NobodyOutstanding(w, q);
    }
  }

  lemma BeginPlaces(w: World, step: Step)
    requires Sound(w) && Enabled(w, step) && FreshId(w, step) && w.s.library && RunBegun(w, step).Some?
    ensures var a := AttemptOf(w, step);
            var w' := Next(w, step);
            && Placed(w', a) && IsLast(w', a) && w'.s.outside.settled == w.s.outside.settled
            && (forall b: BusyId :: Outstanding(w', a.query, b) ==> b == a.task)
            && (forall outcome :: !Holds(RecordsOf(w'.s), a.query, outcome))
            && ChangeOf(w, step, a.query).begins
  {
    hide Sane, SessionsOk, OwnOutcomes, OneOutcome, Next, Enabled, FreshId, TellsOnly, SpawnedFor, InOrder, ChangeOf,
         RunBegun, Outstanding, IsAt, QueryOk, RecordsOf;
    var a, w' := AttemptOf(w, step), Next(w, step);
    BeginsIs(w, step, a.query);
    StepTells(w, step, a.query);
    BegunShows(w, step);
    StepIsInOrder(w, step);
    StepOutstanding(w, step, a.query);
    assert QueryOk(w, a.query);
    NobodyElse(w, step, a.query);
    StartedOf(w.s);
    StartedOf(w'.s);
    LibraryOf(w.s);
    LibraryOf(w'.s);
    ActedBegins(w, step);
  }

  lemma ActedBegins(w: World, step: Step)
    requires Enabled(w, step) && RunBegun(w, step).Some?
    ensures step.Acted?
  {
  }

  lemma NotToldYet(w: World, row: RowId)
    requires OwnOutcomes(RecordsOf(w.s), w.received, w.mailbox) && row >= |w.s.outside.started|
    ensures forall k :: 0 <= k < |w.s.outside.settled| ==> w.s.outside.settled[k].0 != row
  {
    hide Had;
    forall k | 0 <= k < |w.s.outside.settled|
      ensures w.s.outside.settled[k].0 != row
    {
      assert w.s.outside.settled[k] in RecordsOf(w.s).settled;
    }
  }

  lemma FollowsBegin(w: World, step: Step)
    requires Sound(w) && Enabled(w, step) && FreshId(w, step) && w.s.library && RunBegun(w, step).Some?
    ensures Follows(Next(w, step), AttemptOf(w, step))
    ensures Succeeds(Next(w, step), AttemptOf(w, step), |w.s.outside.settled|)
  {
    hide Sane, SessionsOk, QueriesOk, OwnOutcomes, OneOutcome, Next, Enabled, FreshId, InOrder, RunBegun, Outstanding,
         Placed, IsLast, Holds, OfAttempt, OfAttemptOrLater;
    BeginPlaces(w, step);
    NotToldYet(w, |w.s.outside.started|);
  }

  // ── a row is told how its own run ended ─────────────────────────────────

  /** Of the query's rows, only this one and later ones have been told anything since so many had been. */
  ghost predicate TellsFrom(w: World, told: nat, q: QueryId, row: RowId) {
    forall k :: told <= k < |w.s.outside.settled| && RowIsFor(RecordsOf(w.s), w.s.outside.settled[k].0, q) ==>
      w.s.outside.settled[k].0 >= row
  }

  lemma EarlierAreOver(w: World, steps: seq<Step>, a: Attempt, settled: seq<(RowId, RunOutcome)>)
    requires Sound(w) && Legal(w, steps) && NeverReused(w, steps) && w.s.outside.settled == settled
    requires forall row: RowId :: row < a.row && RowIsFor(RecordsOf(w.s), row, a.query) ==> Over(w, a.query, row)
    requires a.row < |w.s.outside.started|
    ensures var w' := After(w, steps);
            settled <= w'.s.outside.settled && TellsFrom(w', |settled|, a.query, a.row)
    decreases |steps|
  {
    hide Sound, Legal, NeverReused, After, Over, RecordsOf;
    var w' := After(w, steps);
    RunTells(w, steps);
    StartedOf(w.s);
    StartedOf(w'.s);
    forall k | |settled| <= k < |w'.s.outside.settled| && RowIsFor(RecordsOf(w'.s), w'.s.outside.settled[k].0, a.query)
      ensures w'.s.outside.settled[k].0 >= a.row
    {
      var row := w'.s.outside.settled[k].0;
      if row < a.row {
        RowStays(RecordsOf(w.s), RecordsOf(w'.s), row, a.query);
        RunIsOver(w, steps, a.query, row);
      }
    }
  }

  /** Rows are only added, and so is what they are told. */
  lemma {:induction false} RunTells(w: World, steps: seq<Step>)
    requires Sound(w) && Legal(w, steps) && NeverReused(w, steps)
    ensures w.s.outside.started <= After(w, steps).s.outside.started
    ensures w.s.outside.settled <= After(w, steps).s.outside.settled
    decreases |steps|
  {
    hide Sane, SessionsOk, QueriesOk, InOrder, OwnOutcomes, OneOutcome, Next, Enabled, FreshId, RecordsOf, ChangeOf;
    if steps != [] {
      StepTells(w, steps[0], 0);
      StartedOf(w.s);
      StartedOf(Next(w, steps[0]).s);
      StepIsSound(w, steps[0]);
      RunTells(Next(w, steps[0]), steps[1..]);
    }
  }

  lemma OthersAreOver(w: World, step: Step)
    requires Sound(w) && Enabled(w, step) && FreshId(w, step) && w.s.library && RunBegun(w, step).Some?
    requires var q := RunBegun(w, step).value.query; Tidy(w, q) && Apart(w, step, q)
    ensures var a := AttemptOf(w, step);
            forall row: RowId :: row < a.row && RowIsFor(RecordsOf(Next(w, step).s), row, a.query) ==>
                Over(Next(w, step), a.query, row)
    ensures AttemptOf(w, step).row < |Next(w, step).s.outside.started|
  {
    hide Sane, SessionsOk, QueriesOk, InOrder, OwnOutcomes, OneOutcome, Next, Enabled, FreshId, RecordsOf, ChangeOf,
         RunBegun, Tidy, Apart, Over, TellsOnly;
    var a, w' := AttemptOf(w, step), Next(w, step);
    BeginPlaces(w, step);
    StepTells(w, step, a.query);
    StartedOf(w.s);
    StartedOf(w'.s);
    LibraryOf(w.s);
    forall row: RowId | row < a.row && RowIsFor(RecordsOf(w'.s), row, a.query)
      ensures Over(w', a.query, row)
    {
      RowStays(RecordsOf(w.s), RecordsOf(w'.s), row, a.query);
      RunsApart(w, step, a.query, row);
      OverStep(w, step, a.query, row);
    }
  }

  /**
   Each row is told how its own run ended. In every run of the system that is
   orderly for a query: when a run of it begins, with its row and its task, then
   whatever that row is ever told is what that very task replied, or that it was
   cancelled, or that its connection was closed, since then; and no row of the
   query begun before is told anything any more.
   */
  lemma RowsAreToldOfTheirOwnRun(g: Wiring, before: seq<Step>, rest: seq<Step>, q: QueryId)
    requires Orderly(Begun(g), before, q) && rest != [] && Orderly(After(Begun(g), before), rest, q)
    requires var w0 := After(Begun(g), before);
             w0.s.library && RunBegun(w0, rest[0]).Some? && RunBegun(w0, rest[0]).value.query == q
    ensures var w0 := After(Begun(g), before);
            var w := After(w0, rest);
            var a := AttemptOf(w0, rest[0]);
            && (forall k :: 0 <= k < |w.s.outside.settled| && w.s.outside.settled[k].0 == a.row ==>
                  OfAttempt(w, a, w.s.outside.settled[k].1))
            && w0.s.outside.settled <= w.s.outside.settled && TellsFrom(w, |w0.s.outside.settled|, q, a.row)
  {
    hide Sane, SessionsOk, QueriesOk, InOrder, OwnOutcomes, OneOutcome, Next, Enabled, FreshId, Apart, Tidy, Sound,
         Begun, RunBegun, RecordsOf, Placed, IsLast, Over;
    var w0 := After(Begun(g), before);
    BegunIsSound(g);
    BegunIsTidy(g, q);
    OrderlyIsTidy(Begun(g), before, q);
    var a, w1 := AttemptOf(w0, rest[0]), Next(w0, rest[0]);
    FollowsBegin(w0, rest[0]);
    BeginPlaces(w0, rest[0]);
    OthersAreOver(w0, rest[0]);
    StepIsSound(w0, rest[0]);
    TidyStep(w0, rest[0], q);
    RunFollows(w1, rest[1..], a);
    EarlierAreOver(w1, rest[1..], a, w0.s.outside.settled);
  }

  // ── and otherwise it is not ─────────────────────────────────────────────

  lemma SucceedsStep(w: World, step: Step, a: Attempt, told: nat)
    requires Sound(w) && Succeeds(w, a, told) && Enabled(w, step) && FreshId(w, step)
    ensures Succeeds(Next(w, step), a, told)
  {
    hide Sane, SessionsOk, QueriesOk, OwnOutcomes, OneOutcome, Next, Enabled, FreshId, InOrder, ChangeOf, EndedBy,
         Placed, Outstanding, SpawnedFor, Holds, Knows, RecordsOf, OfAttemptOrLater;
    var w', q := Next(w, step), a.query;
    PlacedStep(w, step, a);
    PlacedIs(w, a);
    StepTells(w, step, q);
    StepOutstanding(w, step, q);
    StepSpawned(w, step, q, a.task);
    StillOfAttempt(w, step, a);
    StartedOf(w.s);
    StartedOf(w'.s);
    if ChangeOf(w, step, q).ends.Some? {
      var task := EndingIsItsOwn(w, step, q, a.conn, a.from);
      IsOfLater(w', a, task, ChangeOf(w, step, q).ends.value);
    }
    forall k | told <= k < |w'.s.outside.settled| && RowIsFor(RecordsOf(w'.s), w'.s.outside.settled[k].0, q)
      ensures OfAttemptOrLater(w', a, w'.s.outside.settled[k].1)
    {
      if k < |w.s.outside.settled| {
        ToldKnown(w, k);
        RowStays(RecordsOf(w.s), RecordsOf(w'.s), w.s.outside.settled[k].0, q);
      }
    }
  }

  lemma IsOfLater(w: World, a: Attempt, task: BusyId, outcome: RunOutcome)
    requires task >= a.task && EndedBy(w, task, a.conn, a.from, outcome)
    ensures OfAttemptOrLater(w, a, outcome)
  {
    hide EndedBy;
  }

  lemma ToldKnown(w: World, k: nat)
    requires OwnOutcomes(RecordsOf(w.s), w.received, w.mailbox) && k < |w.s.outside.settled|
    ensures w.s.outside.settled[k].0 < |w.s.outside.started|
  {
    hide Had;
    assert w.s.outside.settled[k] in RecordsOf(w.s).settled;
  }

  lemma {:induction false} RunSucceeds(w: World, steps: seq<Step>, a: Attempt, told: nat)
    requires Sound(w) && Legal(w, steps) && NeverReused(w, steps) && Succeeds(w, a, told)
    ensures Succeeds(After(w, steps), a, told)
    decreases |steps|
  {
    hide Sound, Next, Enabled, FreshId, Succeeds;
    if steps != [] {
      SucceedsStep(w, steps[0], a, told);
      StepIsSound(w, steps[0]);
      RunSucceeds(Next(w, steps[0]), steps[1..], a, told);
    }
  }

  lemma {:induction false} ReadBefore(w: World, steps: seq<Step>, q: QueryId, row: RowId)
    requires Legal(w, steps) && !Awaiting(w, row) && Recorded(q, Success(row)) in After(w, steps).received
    ensures Recorded(q, Success(row)) in w.received
    decreases |steps|
  {
    hide Enabled, Next, Awaiting;
    if steps != [] {
      AwaitingStep(w, steps[0], row);
      ReadBefore(Next(w, steps[0]), steps[1..], q, row);
      NotReadNow(w, steps[0], q, row);
    }
  }

  lemma NotReadNow(w: World, step: Step, q: QueryId, row: RowId)
    requires Enabled(w, step) && !Awaiting(w, row) && Recorded(q, Success(row)) in Next(w, step).received
    ensures Recorded(q, Success(row)) in w.received
  {
    hide Apply, Handle, RepliesTo;
    if step.Received? {
      assert !Carries(w.mailbox[0], row);
    }
  }

  lemma NothingUnfinished(w: World, step: Step, q: QueryId)
    requires Sound(w) && Tidy(w, q) && Enabled(w, step) && FreshId(w, step) && ChangeOf(w, step, q).begins
    ensures !Unfinished(RecordsOf(w.s), q)
  {
    hide Sane, SessionsOk, InOrder, OneOutcome, OwnOutcomes, OneAtATime, NoneForgotten, RanOrEstimated, ChangeOf,
         Outstanding, RunsFor;
    BeginsIs(w, step, q);
    assert QueryOk(w, q);
    if w.queue[0].0.DoRun? {
      NothingSpawned(w, q);
      NeverRan(w, q);
    }
  }

  lemma ToldByThen(w: World, q: QueryId, row: RowId)
    requires Tidy(w, q) && !Unfinished(RecordsOf(w.s), q) && Recorded(q, Success(row)) in w.received
    ensures row in ToldRows(w.s.outside.settled)
  {
    hide OneAtATime, RanOrEstimated, ToldRows;
    var i :| 0 <= i < |w.received| && w.received[i] == Recorded(q, Success(row));
  }

  lemma ToldIsNotAwaiting(w: World, row: RowId)
    requires OneOutcome(RecordsOf(w.s), w.mailbox, w.answered) && row in ToldRows(w.s.outside.settled)
    ensures !Awaiting(w, row)
  {
    hide ToldRows, WrittenRows, RowsDiffer;
  }

  /**
   And that condition is exact. Up to now runs of the query have not overlapped;
   then one begins, whether or not it overlaps the one before. A row begun before
   it, that is written sooner or later, has been told its own run's outcome by then
   if and only if it was not being written; and whatever any row of the query is
   told afterwards is an outcome of the run that begins, or of a later one. After a
   first overlap the first half is no longer so: a row can then have been written
   and be told nothing.
   */
  lemma RowsAreToldInTimeExactlyWhenApart(g: Wiring, before: seq<Step>, rest: seq<Step>, q: QueryId, row: RowId)
    requires Orderly(Begun(g), before, q)
    requires rest != [] && Legal(After(Begun(g), before), rest) && NeverReused(After(Begun(g), before), rest)
    requires var w0 := After(Begun(g), before);
             && w0.s.library && RunBegun(w0, rest[0]).Some? && RunBegun(w0, rest[0]).value.query == q
             && RowIsFor(RecordsOf(w0.s), row, q) && Recorded(q, Success(row)) in After(w0, rest).received
    ensures var w0 := After(Begun(g), before);
            var w := After(w0, rest);
            && (row in ToldRows(w0.s.outside.settled) <==> !Awaiting(w0, row))
            && ToldSinceAreOfLater(w, AttemptOf(w0, rest[0]), |w0.s.outside.settled|)
  {
    hide Sane, SessionsOk, QueriesOk, InOrder, OwnOutcomes, OneOutcome, Next, Enabled, FreshId, Apart, Tidy, Begun,
         RunBegun, RecordsOf, Placed, Awaiting, Follows, OfAttemptOrLater, ToldRows;
    var w0 := After(Begun(g), before);
    BegunIsSound(g);
    BegunIsTidy(g, q);
    OrderlyIsTidy(Begun(g), before, q);
    FollowsBegin(w0, rest[0]);
    StepIsSound(w0, rest[0]);
    RunSucceeds(Next(w0, rest[0]), rest[1..], AttemptOf(w0, rest[0]), |w0.s.outside.settled|);
    if row in ToldRows(w0.s.outside.settled) {
      ToldIsNotAwaiting(w0, row);
    } else if !Awaiting(w0, row) {
      ReadBefore(w0, rest, q, row);
      BeginsIs(w0, rest[0], q);
      NothingUnfinished(w0, rest[0], q);
      ToldByThen(w0, q, row);
    }
  }

  // ── an outcome is lost ──────────────────────────────────────────────────

  /** No row of the query was told anything. */
  predicate Untold(r: Records, r': Records, q: QueryId) {
    forall k :: |r.settled| <= k < |r'.settled| ==> !RowIsFor(r', r'.settled[k].0, q)
  }

  /** The outcome that was held is held no more, nobody was told it, and its row did not fail. */
  predicate Loses(w: World, step: Step, q: QueryId)
    requires Enabled(w, step)
  {
    var r, r' := RecordsOf(w.s), RecordsOf(Next(w, step).s);
    && HoldsOne(r, q) && !Holds(r', q, r.runs[q].outcome.value) && Untold(r, r', q)
    && !(step.Received? && w.mailbox[0].Recorded? && w.mailbox[0].query == q && w.mailbox[0].written.Failure?)
  }

  predicate NeverLoses(w: World, steps: seq<Step>, q: QueryId)
    requires Legal(w, steps)
    decreases |steps|
  {
    steps == [] || (!Loses(w, steps[0], q) && NeverLoses(Next(w, steps[0]), steps[1..], q))
  }

  /**
   A reply comes late: its task was given up on, the query is still there, its
   row is still being written, and the reply says something else than what the
   row is to be told.
   */
  predicate EndsAgain(w: World, step: Step, q: QueryId)
    requires Enabled(w, step)
  {
    && step.Received? && w.mailbox[0].Ran? && w.mailbox[0].query == q
    && q in w.s.queries && w.mailbox[0].busy !in w.s.tasks
    && q in w.s.runs && w.s.runs[q].Starting? && w.s.runs[q] != Starting(Some(OutcomeOf(w.mailbox[0].output)))
  }

  predicate NeverEndsAgain(w: World, steps: seq<Step>, q: QueryId)
    requires Legal(w, steps)
    decreases |steps|
  {
    steps == [] || (!EndsAgain(w, steps[0], q) && NeverEndsAgain(Next(w, steps[0]), steps[1..], q))
  }

  /** A query whose run's outcome is held is not running. */
  predicate OverWhileHeld(s: State, q: QueryId) {
    HoldsOne(RecordsOf(s), q) && q in s.queries ==> !s.queries[q].data.Loading?
  }

  lemma ReadsIs(w: World, step: Step, q: QueryId)
    requires Enabled(w, step)
    ensures ChangeOf(w, step, q).read ==
            if step.Received? && w.mailbox[0].Recorded? && w.mailbox[0].query == q then Some(w.mailbox[0].written)
            else None
  {
    hide Begins, Orphans, Named, RowOf, CloseConn;
  }

  lemma NothingHeld(w: World, step: Step, q: QueryId)
    requires Sound(w) && Tidy(w, q) && Enabled(w, step) && FreshId(w, step) && Apart(w, step, q)
    requires ChangeOf(w, step, q).begins
    ensures !HoldsOne(RecordsOf(w.s), q)
  {
    hide Sound, Tidy, ChangeOf;
    BeginsIs(w, step, q);
    if w.queue[0].0.DoRun? {
      NothingSpawned(w, q);
      NeverRan(w, q);
    } else {
      NotBeingWritten(w, q);
    }
  }

  lemma OverlapIs(w: World, step: Step, q: QueryId)
    requires Tidy(w, q) && Enabled(w, step) && !Apart(w, step, q)
    ensures RunBegun(w, step).Some? && RunBegun(w, step).value.query == q
    ensures q in w.s.runs && w.s.runs[q].Starting? && w.s.library && step.Acted?
  {
    hide NoneForgotten, RanOrEstimated;
    assert BeingWritten(RecordsOf(w.s), w.mailbox, w.answered, q) by {
      if row :| 0 <= row < |w.s.outside.started| && w.s.outside.started[row].query == q && row !in w.answered {
        assert Unanswered(RecordsOf(w.s), w.answered, q, row);
      } else {
        var i :| 0 <= i < |w.mailbox| && w.mailbox[i].Recorded? && w.mailbox[i].query == q;
        assert Unread(w.mailbox, q, i);
      }
    }
  }

  lemma RanForIt(w: World, q: QueryId)
    requires Tidy(w, q) && HoldsOne(RecordsOf(w.s), q)
    ensures exists task :: SpawnedFor(w.s.outside.spawned, q, task)
  {
    hide OneAtATime, NoneForgotten, SpawnedFor;
  }

  lemma OverStepsOn(w: World, step: Step, q: QueryId)
    requires Sound(w) && Tidy(w, q) && Enabled(w, step) && FreshId(w, step) && Apart(w, step, q)
    requires OverWhileHeld(w.s, q)
    ensures OverWhileHeld(Next(w, step).s, q)
  {
    hide Sane, SessionsOk, QueriesOk, InOrder, OwnOutcomes, OneOutcome, Next, Enabled, FreshId, Apart, Tidy, ChangeOf,
         SpawnedFor, RecordsOf;
    var ch, r, r' := ChangeOf(w, step, q), RecordsOf(w.s), RecordsOf(Next(w, step).s);
    if HoldsOne(r', q) && ch.ends.None? {
      StepTells(w, step, q);
      TidyStep(w, step, q);
      HeldIsKept(Next(w, step), q);
      assert Holds(r', q, r'.runs[q].outcome.value);
      RanForIt(w, q);
      var task :| SpawnedFor(w.s.outside.spawned, q, task);
      StepLeavesIt(w, step, q, task);
    } else if HoldsOne(r', q) {
      EndedIsNotLoading(w, step, q);
    }
  }

  lemma HeldIsKept(w: World, q: QueryId)
    requires Tidy(w, q) && HoldsOne(RecordsOf(w.s), q)
    ensures RecordsOf(w.s).library
  {
    hide OneAtATime, NoneForgotten, RanOrEstimated;
  }

  lemma EndedIsNotLoading(w: World, step: Step, q: QueryId)
    requires Sound(w) && Enabled(w, step) && FreshId(w, step) && ChangeOf(w, step, q).ends.Some?
    ensures q in Next(w, step).s.queries ==> !Next(w, step).s.queries[q].data.Loading?
  {
    hide Sane, SessionsOk, QueriesOk, OwnOutcomes, OneOutcome, Next, Enabled, FreshId, ChangeOf, InOrder, EndedBy;
    var task := EndingIsItsOwn(w, step, q, if q in w.s.queries then w.s.queries[q].conn else 0, w.s.applied);
    OutstandingIsSpawned(w, q, task);
    StepLeavesIt(w, step, q, task);
  }

  lemma OutstandingIsSpawned(w: World, q: QueryId, task: BusyId)
    requires Outstanding(w, q, task)
    ensures SpawnedFor(w.s.outside.spawned, q, task)
  {
  }

  /** A run that has ended is ended again only by the late reply of its own task. */
  lemma EndsAgainLate(w: World, step: Step, q: QueryId)
    requires Sound(w) && Enabled(w, step) && OverWhileHeld(w.s, q) && HoldsOne(RecordsOf(w.s), q)
    requires ChangeOf(w, step, q).ends.Some?
    ensures step.Received? && w.mailbox[0].Ran? && w.mailbox[0].query == q
            && q in w.s.queries && w.mailbox[0].busy !in w.s.tasks
            && ChangeOf(w, step, q).ends.value == OutcomeOf(w.mailbox[0].output)
  {
    hide Sane, SessionsOk, QueriesOk, InOrder, OwnOutcomes, OneOutcome, OutcomeOf, RowOf, Orphans, CloseConn, Named,
         Outstanding, RunsFor, BusyOk, RecordsOf, RepliesTo, OverWhileHeld;
    SaneHasRows(w);
    if step.Received? {
      RanWasOutstanding(w, q);
      RunsIfThere(w, q, w.mailbox[0].busy);
    } else if w.queue[0].0.DoCancel? {
      TaskOfRow(w.s, w.queue[0].0.id);
      TaskRunsFor(w.s, q, w.queue[0].0.id);
    } else {
      var task := OrphanRunsFor(w.s, q, w.queue[0].0.conn);
    }
    NobodyRuns(w, q);
  }

  lemma NobodyRuns(w: World, q: QueryId)
    requires QueriesOk(w) && OverWhileHeld(w.s, q) && HoldsOne(RecordsOf(w.s), q)
    ensures forall b :: !RunsFor(w.s, q, b)
  {
    hide Outstanding, RunsFor;
    assert QueryOk(w, q);
  }

  lemma RunsIfThere(w: World, q: QueryId, task: BusyId)
    requires BusyOk(w.s) && Outstanding(w, q, task)
    ensures task in w.s.tasks ==> RunsFor(w.s, q, task)
  {
    hide Mirrors, Distinct, InMail;
  }

  /** Where a task's reply comes late, the run is known to have ended. */
  lemma LateIsHeld(w: World, step: Step, q: QueryId)
    requires Sound(w) && Tidy(w, q) && Enabled(w, step) && EndsAgain(w, step, q)
    ensures HoldsOne(RecordsOf(w.s), q)
  {
    hide SessionsOk, InOrder, OwnOutcomes, OneOutcome, OutcomeOf, Outstanding, BusyOk, MailGenuine, NoReplyLost,
         PagesTracked, SearchTracked, OneAtATime, NoneForgotten, RanOrEstimated;
    assert QueryOk(w, q);
    if w.s.runs[q].outcome.None? {
      assert LoadingAt(w.s, OfQuery(q));
      var b :| b in w.s.tasks && OwnerOf(w.s.tasks[b]) == OfQuery(q);
      TaskRunsFor(w.s, q, b);
      RunningIsOutstanding(w, q, b);
      RanWasOutstanding(w, q);
    }
  }

  lemma ReadIsFor(w: World, step: Step, q: QueryId)
    requires OwnOutcomes(RecordsOf(w.s), w.received, w.mailbox) && Enabled(w, step)
    ensures var read := ChangeOf(w, step, q).read;
            read.Some? && read.value.Success? ==> RowIsFor(RecordsOf(w.s), read.value.value, q)
  {
    hide OwnOutcomes, ChangeOf, RecordsOf;
    ReadsIs(w, step, q);
    OwnRowsFit(RecordsOf(w.s), w.received, w.mailbox);
  }

  lemma LosesOnlyThen(w: World, step: Step, q: QueryId)
    requires Sound(w) && Tidy(w, q) && Enabled(w, step) && FreshId(w, step) && OverWhileHeld(w.s, q)
    requires Loses(w, step, q) && Apart(w, step, q)
    ensures EndsAgain(w, step, q)
  {
    hide Sane, SessionsOk, QueriesOk, InOrder, OwnOutcomes, OneOutcome, Next, Enabled, FreshId, Apart, Tidy, TellsOnly,
         ChangeOf, RecordsOf, RunBegun;
    var ch, r, r' := ChangeOf(w, step, q), RecordsOf(w.s), RecordsOf(Next(w, step).s);
    StepTells(w, step, q);
    ReadsIs(w, step, q);
    RunsOf(w.s);
    HeldIsKept(w, q);
    if ch.begins {
      NothingHeld(w, step, q);
      assert false;
    } else if ch.read.Some? {
      ReadIsFor(w, step, q);
      RowStays(r, r', ch.read.value.value, q);
      TellsTheRow(r, r', q, ch.read.value.value, r.runs[q].outcome.value);
    } else {
      EndsAgainLate(w, step, q);
    }
  }

  lemma TellsTheRow(r: Records, r': Records, q: QueryId, row: RowId, outcome: RunOutcome)
    requires r'.settled == r.settled + [(row, outcome)] && RowIsFor(r', row, q)
    ensures !Untold(r, r', q)
  {
    assert r'.settled[|r.settled|] == (row, outcome);
  }

  lemma OverlapLoses(w: World, step: Step, q: QueryId)
    requires Sound(w) && Tidy(w, q) && Enabled(w, step) && FreshId(w, step) && !Apart(w, step, q)
    ensures Loses(w, step, q)
  {
    hide Sane, SessionsOk, QueriesOk, InOrder, OwnOutcomes, OneOutcome, Next, Enabled, FreshId, Apart, OneAtATime,
         NoneForgotten, RanOrEstimated, TellsOnly, ChangeOf, RecordsOf, RunBegun;
    StepTells(w, step, q);
    BeginsIs(w, step, q);
    RunsOf(w.s);
    LibraryOf(w.s);
    OverlapIs(w, step, q);
    NothingUnfinished(w, step, q);
  }

  lemma LateLoses(w: World, step: Step, q: QueryId)
    requires Sound(w) && Tidy(w, q) && Enabled(w, step) && EndsAgain(w, step, q)
    ensures Loses(w, step, q)
  {
    hide Sane, SessionsOk, QueriesOk, InOrder, OwnOutcomes, OneOutcome, Next, Enabled, Tidy, RecordsOf, OutcomeOf;
    StepTells(w, step, q);
    RunsOf(w.s);
    LateIsHeld(w, step, q);
    NoneKnown(RecordsOf(w.s), q);
  }

  lemma NoneKnown(r: Records, q: QueryId)
    requires HoldsOne(r, q)
    ensures forall row :: !Knows(r, q, row)
  {
  }

  /**
   A step loses an outcome exactly when it begins a run while a row is being
   written, or reads a reply that comes late.
   */
  lemma LosesExactlyWhen(w: World, step: Step, q: QueryId)
    requires Sound(w) && Tidy(w, q) && Enabled(w, step) && FreshId(w, step) && OverWhileHeld(w.s, q)
    ensures Loses(w, step, q) <==> !Apart(w, step, q) || EndsAgain(w, step, q)
  {
    hide Sound, Tidy, Next, Enabled, FreshId, Apart, Loses, EndsAgain, OverWhileHeld;
    if !Apart(w, step, q) {
      OverlapLoses(w, step, q);
    } else if EndsAgain(w, step, q) {
      LateLoses(w, step, q);
    } else if Loses(w, step, q) {
      LosesOnlyThen(w, step, q);
    }
  }

  lemma {:induction false} RunLosesExactlyWhen(w: World, steps: seq<Step>, q: QueryId)
    requires Sound(w) && Tidy(w, q) && OverWhileHeld(w.s, q) && Legal(w, steps) && NeverReused(w, steps)
    ensures NeverLoses(w, steps, q) <==> NeverOverlaps(w, steps, q) && NeverEndsAgain(w, steps, q)
    decreases |steps|
  {
    hide Sound, Tidy, Next, Enabled, FreshId, Apart, Loses, EndsAgain, OverWhileHeld;
    if steps != [] {
      LosesExactlyWhen(w, steps[0], q);
      if Apart(w, steps[0], q) {
        StepIsSound(w, steps[0]);
        TidyStep(w, steps[0], q);
        OverStepsOn(w, steps[0], q);
        RunLosesExactlyWhen(Next(w, steps[0]), steps[1..], q);
      }
    }
  }

  /**
   In every run that uses no query id twice: an outcome that was held for a row is
   never dropped untold, if and only if no approval began a run of the query while
   a row of it was being written, and no reply of a task that had been given up on
   was read while the row of its run was, saying something else.
   */
  lemma OutcomesAreLostExactlyWhen(g: Wiring, steps: seq<Step>, q: QueryId)
    requires Legal(Begun(g), steps) && NeverReused(Begun(g), steps)
    ensures NeverLoses(Begun(g), steps, q) <==> NeverOverlaps(Begun(g), steps, q) && NeverEndsAgain(Begun(g), steps, q)
  {
    hide Sound, Tidy, Legal, NeverReused, NeverLoses, NeverOverlaps, NeverEndsAgain, Begun, RecordsOf;
    BegunIsSound(g);
    BegunIsTidy(g, q);
    NoneBegunYet(g);
    RunLosesExactlyWhen(Begun(g), steps, q);
  }

  lemma NoneBegunYet(g: Wiring)
    ensures Begun(g).s.queries == map[]
  {
  }

  // ── exactly one ─────────────────────────────────────────────────────────

  /** The row's run is over, and it will be told if it is written. */
  predicate HasEnded(w: World, q: QueryId, row: RowId) {
    && RowIsFor(RecordsOf(w.s), row, q) && !Knows(RecordsOf(w.s), q, row)
    && (Awaiting(w, row) ==> HoldsOne(RecordsOf(w.s), q))
  }

  /** The row that is being written is the one that is read. */
  lemma ReadsTheRow(w: World, q: QueryId, row: RowId)
    requires Tidy(w, q) && OneOutcome(RecordsOf(w.s), w.mailbox, w.answered)
    requires OwnOutcomes(RecordsOf(w.s), w.received, w.mailbox) && RowIsFor(RecordsOf(w.s), row, q)
    requires w.mailbox != [] && w.mailbox[0].Recorded? && w.mailbox[0].query == q && Enabled(w, Received)
    ensures !Awaiting(Next(w, Received), row)
  {
    hide NoneForgotten, RanOrEstimated, OwnOutcomes, ToldRows, WrittenRows, RowsDiffer, Handle, RecordsOf, Kept;
    var w' := Next(w, Received);
    StartedOf(w.s);
    CarriesItsOwn(w, q, row);
    assert Unread(w.mailbox, q, 0);
    assert !Unanswered(RecordsOf(w.s), w.answered, q, row);
    forall i | 0 <= i < |w.mailbox| && Carries(w.mailbox[i], row)
      ensures i == 0
    {
      assert Unread(w.mailbox, q, i);
    }
    assert forall i :: 0 <= i < |w'.mailbox| ==> w'.mailbox[i] == w.mailbox[i + 1];
  }

  lemma EndedStep(w: World, step: Step, q: QueryId, row: RowId)
    requires Sound(w) && Tidy(w, q) && Enabled(w, step) && FreshId(w, step) && Apart(w, step, q) && HasEnded(w, q, row)
    ensures HasEnded(Next(w, step), q, row)
  {
    hide Sane, SessionsOk, QueriesOk, InOrder, OwnOutcomes, OneOutcome, Next, Enabled, FreshId, Apart, Tidy, Awaiting,
         ChangeOf, RecordsOf, HoldsOne, Knows;
    var r, r' := RecordsOf(w.s), RecordsOf(Next(w, step).s);
    if !Awaiting(w, row) {
      OverStep(w, step, q, row);
    } else {
      StepTells(w, step, q);
      ReadsIs(w, step, q);
      RowStays(r, r', row, q);
      KnowsNothing(r', q, row);
      if ChangeOf(w, step, q).begins {
        RunsApart(w, step, q, row);
        assert false;
      } else if ChangeOf(w, step, q).read.Some? {
        HasMail(w, step);
        ReadsTheRow(w, q, row);
      } else {
        HoldingIsNotKnowing(r, q, row);
        StillHolds(r, r', q, ChangeOf(w, step, q));
      }
    }
  }

  lemma HasMail(w: World, step: Step)
    requires Enabled(w, step) && step.Received?
    ensures w.mailbox != [] && Enabled(w, Received)
  {
  }

  lemma KnowsNothing(r: Records, q: QueryId, row: RowId)
    ensures q !in r.runs ==> !Knows(r, q, row)
  {
  }

  lemma StillHolds(r: Records, r': Records, q: QueryId, ch: Change)
    requires KeepsHolding(r, r', q, ch) && HoldsOne(r, q) && !ch.begins && ch.read.None?
    ensures HoldsOne(r', q)
  {
  }

  lemma HoldingIsNotKnowing(r: Records, q: QueryId, row: RowId)
    ensures HoldsOne(r, q) ==> !Knows(r, q, row)
  {
  }

  lemma {:induction false} RunHasEnded(w: World, steps: seq<Step>, q: QueryId, row: RowId)
    requires Sound(w) && Tidy(w, q) && Orderly(w, steps, q) && HasEnded(w, q, row)
    ensures HasEnded(After(w, steps), q, row)
    decreases |steps|
  {
    hide Sound, Tidy, Next, Enabled, FreshId, Apart, HasEnded;
    if steps != [] {
      EndedStep(w, steps[0], q, row);
      StepIsSound(w, steps[0]);
      TidyStep(w, steps[0], q);
      RunHasEnded(Next(w, steps[0]), steps[1..], q, row);
    }
  }

  lemma EndsHere(w: World, q: QueryId, row: RowId)
    requires Sound(w) && Tidy(w, q) && RowIsFor(RecordsOf(w.s), row, q)
    requires q in w.s.queries && !w.s.queries[q].data.Loading?
    ensures HasEnded(w, q, row)
  {
    hide Sane, SessionsOk, QueriesOk, InOrder, OneOutcome, OwnOutcomes, NoneForgotten, RanOrEstimated;
    if Awaiting(w, row) {
      CarriesItsOwn(w, q, row);
      assert BeingWritten(RecordsOf(w.s), w.mailbox, w.answered, q) by {
        if row !in w.answered {
          assert Unanswered(RecordsOf(w.s), w.answered, q, row);
        } else {
          var i :| 0 <= i < |w.mailbox| && Carries(w.mailbox[i], row);
          assert Unread(w.mailbox, q, i);
        }
      }
    }
  }

  lemma EndedAndWritten(w: World, q: QueryId, row: RowId)
    requires Tidy(w, q) && HasEnded(w, q, row) && Recorded(q, Success(row)) in w.received
    ensures row in ToldRows(w.s.outside.settled)
  {
    hide OneAtATime, RanOrEstimated, ToldRows;
    var i :| 0 <= i < |w.received| && w.received[i] == Recorded(q, Success(row));
  }

  /**
   In every run that is orderly for a query: if at some time a row of the query
   has been begun and the query shows that it is not running, then at any later
   time at which the library has said that the row was written, the row has been
   told an outcome, and one only, whatever became of the query since.
   */
  lemma EndedRunsAreToldOnce(g: Wiring, before: seq<Step>, later: seq<Step>, q: QueryId, row: RowId)
    requires Orderly(Begun(g), before, q) && Orderly(After(Begun(g), before), later, q)
    requires var s := After(Begun(g), before).s;
             RowIsFor(RecordsOf(s), row, q) && q in s.queries && !s.queries[q].data.Loading?
    ensures var w := After(After(Begun(g), before), later);
            Recorded(q, Success(row)) in w.received ==>
              row in ToldRows(w.s.outside.settled) && RowsDiffer(w.s.outside.settled)
  {
    hide Sane, SessionsOk, QueriesOk, InOrder, OwnOutcomes, RowsDiffer, ToldRows, WrittenRows, Carries, Tidy, HasEnded,
         RecordsOf, Begun, Next, Enabled;
    var w0 := After(Begun(g), before);
    var w := After(w0, later);
    BegunIsSound(g);
    BegunIsTidy(g, q);
    OrderlyIsTidy(Begun(g), before, q);
    EndsHere(w0, q, row);
    RunHasEnded(w0, later, q, row);
    OrderlyIsTidy(w0, later, q);
    StartedOf(w.s);
    if Recorded(q, Success(row)) in w.received {
      EndedAndWritten(w, q, row);
    }
  }
}
