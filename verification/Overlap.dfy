/**
 Runs of the system in which an outcome is lost. Somebody says yes before the
 refusal's row has been written, and the row is told the outcome of another run
 than its own; the same with the row written first. And somebody cancels a run
 whose reply is on its way, and the row never says that it was cancelled.
 */
module Overlap {
  import opened Wrappers
  import opened Pages
  import opened Store
  import opened Runs
  import opened Rows
  import opened Queries
  import opened Loading
  import opened Attribution

  // ── putting a run together ──────────────────────────────────────────────

  predicate Possible(w: World, steps: seq<Step>) {
    Legal(w, steps) && NeverReused(w, steps)
  }

  lemma {:induction false} PossibleThen(w: World, first: seq<Step>, rest: seq<Step>)
    requires Possible(w, first) && Possible(After(w, first), rest)
    ensures Possible(w, first + rest) && After(w, first + rest) == After(After(w, first), rest)
    decreases |first|
  {
    hide Enabled, Next, FreshId;
    if first == [] {
      assert first + rest == rest;
    } else {
      assert (first + rest)[1..] == first[1..] + rest;
      PossibleThen(Next(w, first[0]), first[1..], rest);
    }
  }

  lemma TwoSteps(w: World, a: Step, b: Step)
    requires Enabled(w, a) && FreshId(w, a) && Enabled(Next(w, a), b) && FreshId(Next(w, a), b)
    ensures Possible(w, [a, b]) && After(w, [a, b]) == Next(Next(w, a), b)
  {
    hide Enabled, Next, FreshId;
    var w1 := Next(w, a);
    var w2 := Next(w1, b);
    assert [a, b][1..] == [b] && [b][1..] == [];
    assert Legal(w2, []) && NeverReused(w2, []) && After(w2, []) == w2;
    assert Legal(w1, [b]) && NeverReused(w1, [b]) && After(w1, [b]) == w2;
  }

  lemma OneStep(w: World, a: Step)
    requires Enabled(w, a) && FreshId(w, a)
    ensures Possible(w, [a]) && After(w, [a]) == Next(w, a)
  {
    hide Enabled, Next, FreshId;
    assert [a][1..] == [];
    assert Legal(Next(w, a), []) && NeverReused(Next(w, a), []);
  }

  predicate Listening(w: World) {
    w.queue == [] && !w.s.shouldQuit
  }

  predicate Resting(w: World) {
    Listening(w) && w.mailbox == []
  }

  function Acting(a: Action): seq<Step> { [Dispatched(a, Human), Acted] }

  function TakenIn(w: World, a: Action): World {
    w.(s := Apply(w.s.(applied := w.s.applied + 1), a, Human), sent := w.sent + 1, log := w.log + [(a, Human)])
  }

  /** Somebody dispatches, and the loop takes it. */
  lemma Acts(w: World, a: Action)
    requires Listening(w)
    requires (a.DoRun? || a.DoEstimate?) ==>
               forall b :: b in w.s.outside.spawned ==> OwnerOf(w.s.outside.spawned[b]) != OfQuery(a.query)
    ensures Possible(w, Acting(a)) && After(w, Acting(a)) == TakenIn(w, a)
  {
    hide Apply, Possible, After;
    TwoSteps(w, Dispatched(a, Human), Acted);
  }

  function Hearing(e: Event): seq<Step> { [Completed(e), Received] }

  function HeardIn(w: World, e: Event): World
    requires !e.Recorded?
  {
    w.(s := Handle(w.s, e), received := w.received + [e], replied := w.replied + {e.busy})
  }

  /** A task replies, and the loop takes that. */
  lemma Hears(w: World, e: Event)
    requires Resting(w) && RepliesTo(e, w)
    ensures Possible(w, Hearing(e)) && After(w, Hearing(e)) == HeardIn(w, e)
  {
    hide Handle, Possible, After, Fits;
    TwoSteps(w, Completed(e), Received);
  }

  function Writing(row: RowId): seq<Step> { [RowAnswered(row, None), Received] }

  function WrittenIn(w: World, row: RowId): World
    requires row < |w.s.outside.started|
  {
    var e := Recorded(w.s.outside.started[row].query, Success(row));
    w.(s := Handle(w.s, e), received := w.received + [e], answered := w.answered + {row})
  }

  /** The library has written a row, and the loop takes that. */
  lemma Writes(w: World, row: RowId)
    requires Resting(w) && row < |w.s.outside.started| && row !in w.answered
    ensures Possible(w, Writing(row)) && After(w, Writing(row)) == WrittenIn(w, row)
  {
    hide Handle, Possible, After;
    TwoSteps(w, RowAnswered(row, None), Received);
  }

  // ── the story ───────────────────────────────────────────────────────────

  datatype Story = Story(profile: string, conn: ConnId, query: QueryId, sql: string, out: ConnectOutput,
                         over: A.OverBudget,
                         result: ResultSet<Row>)

  function RunIn(y: Story): RunStart { RunStart(y.query, y.conn, y.sql, Human) }

  function Refusal(y: Story): Event { Ran(y.query, 2, Success(AskFirst(y.over))) }

  function Answer(y: Story): Event { Ran(y.query, 3, Success(RanRows(y.result))) }

  /** What the story is about, as far as it has got. */
  predicate Stage(w: World, y: Story, query: Query, runs: map<QueryId, Recording>, started: seq<RunStart>,
                  settled: seq<(RowId, RunOutcome)>, spawned: map<BusyId, Task>, replied: set<BusyId>,
                      answered: set<RowId>)
  {
    && Resting(w) && w.s.library && SessionOf(w.s, y.conn).Some?
    && w.s.queries == map[y.query := query] && w.s.runs == runs && w.s.outside.started == started
    && w.s.outside.settled == settled && w.s.outside.spawned == spawned
    && w.replied == replied && w.answered == answered
    && w.s.nextId == 2 + |started|
  }

  function FirstTasks(y: Story): map<BusyId, Task> { map[1 := Connect(y.conn), 2 := Run(y.query)] }

  function AllTasks(y: Story): map<BusyId, Task> { FirstTasks(y)[3 := RunOver(y.query, y.over)] }

  function Waits(y: Story): Query { Query(y.conn, y.sql, Some(y.over), Idle) }

  function Running(y: Story): Query { Query(y.conn, y.sql, None, Store.Loading) }

  function HasRows(y: Story): Query { Query(y.conn, y.sql, None, Ready(New(y.result))) }

  predicate Connectable(g: Wiring, y: Story) {
    g.library && y.profile in g.profiles && g.profiles[y.profile] && y.out.session.id == 1
  }

  /** Connected. */
  lemma Connects(g: Wiring, y: Story)
    requires Connectable(g, y)
    ensures var w := TakenIn(Begun(g), DoConnect(y.profile, y.conn));
            && Resting(w) && RepliesTo(Connected(y.conn, 1, Success(y.out)), w)
            && y.conn in w.s.conns && w.s.conns[y.conn] == NewConn(Connecting)
            && w.s.outside.spawned == map[1 := Connect(y.conn)] && w.s.nextId == 2
            && w.replied == {} && w.answered == {}
            && w.s.queries == map[] && w.s.runs == map[] && w.s.library
            && w.s.outside.started == [] && w.s.outside.settled == []
  {
  }

  lemma Opens(w: World, y: Story)
    requires Resting(w) && y.conn in w.s.conns && w.s.conns[y.conn] == NewConn(Connecting) && w.s.library
    requires w.s.outside.spawned == map[1 := Connect(y.conn)] && w.replied == {} && w.answered == {} && w.s.nextId == 2
    requires w.s.queries == map[] && w.s.runs == map[] && w.s.outside.started == [] && w.s.outside.settled == []
    ensures var w' := HeardIn(w, Connected(y.conn, 1, Success(y.out)));
            && Resting(w') && SessionOf(w'.s, y.conn).Some? && w'.s.library
            && w'.s.outside.spawned == map[1 := Connect(y.conn)] && w'.s.nextId == 2
            && w'.replied == {1} && w'.answered == {}
            && w'.s.queries == map[] && w'.s.runs == map[] && w'.s.outside.started == [] && w'.s.outside.settled == []
  {
    hide Except, T.Flatten, T.SetRoots;
  }

  lemma Sends(w: World, y: Story)
    requires Resting(w) && SessionOf(w.s, y.conn).Some? && w.s.library
    requires w.s.outside.spawned == map[1 := Connect(y.conn)] && w.replied == {1} && w.answered == {} && w.s.nextId == 2
    requires w.s.queries == map[] && w.s.runs == map[] && w.s.outside.started == [] && w.s.outside.settled == []
    ensures Stage(TakenIn(w, DoRun(y.conn, y.query, y.sql)), y, Running(y), map[y.query := Starting(None)], [RunIn(y)],
                  [],
                  FirstTasks(y), {1}, {})
  {
  }

  lemma Refuses(w: World, y: Story)
    requires Stage(w, y, Running(y), map[y.query := Starting(None)], [RunIn(y)], [], FirstTasks(y), {1}, {})
    ensures RepliesTo(Refusal(y), w)
    ensures Stage(HeardIn(w, Refusal(y)), y, Waits(y), map[y.query := Starting(Some(RunRefused(OVER_THE_BUDGET)))],
                  [RunIn(y)], [],
                  FirstTasks(y), {1, 2}, {})
  {
    hide Except;
  }

  /** The statement has been sent. */
  function SentSteps(y: Story): seq<Step> {
    Acting(DoConnect(y.profile, y.conn)) + Hearing(Connected(y.conn, 1, Success(y.out)))
    + Acting(DoRun(y.conn, y.query, y.sql))
  }

  lemma SentIs(g: Wiring, y: Story)
    requires Connectable(g, y)
    ensures Possible(Begun(g), SentSteps(y))
    ensures Stage(After(Begun(g), SentSteps(y)), y, Running(y), map[y.query := Starting(None)], [RunIn(y)], [],
                  FirstTasks(y), {1}, {})
  {
    hide TakenIn, HeardIn, Legal, NeverReused, After, RepliesTo, Acting, Hearing, Stage;
    var w0, connect, open := Begun(g), DoConnect(y.profile, y.conn), Connected(y.conn, 1, Success(y.out));
    var run := DoRun(y.conn, y.query, y.sql);
    Connects(g, y);
    Acts(w0, connect);
    var w1 := TakenIn(w0, connect);
    Opens(w1, y);
    Hears(w1, open);
    var w2 := HeardIn(w1, open);
    Sends(w2, y);
    Acts(w2, run);
    PossibleThen(w0, Acting(connect), Hearing(open));
    PossibleThen(w0, Acting(connect) + Hearing(open), Acting(run));
  }

  /** The refusal has come and its row is not written yet. */
  function AskedSteps(y: Story): seq<Step> {
    SentSteps(y) + Hearing(Refusal(y))
  }

  lemma AskedIs(g: Wiring, y: Story)
    requires Connectable(g, y)
    ensures Possible(Begun(g), AskedSteps(y))
    ensures Stage(After(Begun(g), AskedSteps(y)), y, Waits(y),
                  map[y.query := Starting(Some(RunRefused(OVER_THE_BUDGET)))],
                  [RunIn(y)], [], FirstTasks(y), {1, 2}, {})
  {
    hide HeardIn, Legal, NeverReused, After, RepliesTo, SentSteps, Hearing, Stage;
    SentIs(g, y);
    var w3 := After(Begun(g), SentSteps(y));
    Refuses(w3, y);
    StageRests(w3, y, Running(y), map[y.query := Starting(None)], [RunIn(y)], [], FirstTasks(y), {1}, {});
    Hears(w3, Refusal(y));
    PossibleThen(Begun(g), SentSteps(y), Hearing(Refusal(y)));
  }

  lemma StageRests(w: World, y: Story, query: Query, runs: map<QueryId, Recording>, started: seq<RunStart>,
                   settled: seq<(RowId, RunOutcome)>, spawned: map<BusyId, Task>, replied: set<BusyId>,
                       answered: set<RowId>)
    requires Stage(w, y, query, runs, started, settled, spawned, replied, answered)
    ensures Resting(w)
  {
  }

  const REFUSED := RunRefused(OVER_THE_BUDGET)

  function Came(y: Story): RunOutcome { RunOk(|y.result.rows|) }

  /** A yes: whatever was held or kept is replaced by the wait for another row. */
  lemma Approves(w: World, y: Story, runs: map<QueryId, Recording>, settled: seq<(RowId, RunOutcome)>,
                 answered: set<RowId>)
    requires Stage(w, y, Waits(y), runs, [RunIn(y)], settled, FirstTasks(y), {1, 2}, answered) && runs.Keys <= {y.query}
    ensures Stage(TakenIn(w, DoApprove(y.query)), y, Running(y), map[y.query := Starting(None)], [RunIn(y), RunIn(y)],
                  settled,
                  AllTasks(y), {1, 2}, answered)
  {
    assert runs[y.query := Starting(None)] == map[y.query := Starting(None)];
  }

  /** The first row has been written, while a run is waiting for a row. */
  lemma WritesFirst(w: World, y: Story)
    requires Stage(w, y, Running(y), map[y.query := Starting(None)], [RunIn(y), RunIn(y)], [], AllTasks(y), {1, 2}, {})
    ensures Stage(WrittenIn(w, 0), y, Running(y), map[y.query := Written(0)], [RunIn(y), RunIn(y)], [], AllTasks(y),
                  {1, 2}, {0})
  {
    assert {} + {0} == {0};
  }

  /** The approved run is over while it is thought to have the first row. */
  lemma EndsWithFirst(w: World, y: Story)
    requires Stage(w, y, Running(y), map[y.query := Written(0)], [RunIn(y), RunIn(y)], [], AllTasks(y), {1, 2}, {0})
    ensures RepliesTo(Answer(y), w)
    ensures Stage(HeardIn(w, Answer(y)), y, HasRows(y), map[], [RunIn(y), RunIn(y)], [(0, Came(y))], AllTasks(y),
                  {1, 2, 3}, {0})
  {
    hide Except, New;
    assert map[y.query := Written(0)] - {y.query} == map[];
  }

  /** And its own row is written, for nobody. */
  lemma WritesForNobody(w: World, y: Story)
    requires Stage(w, y, HasRows(y), map[], [RunIn(y), RunIn(y)], [(0, Came(y))], AllTasks(y), {1, 2, 3}, {0})
    ensures Stage(WrittenIn(w, 1), y, HasRows(y), map[], [RunIn(y), RunIn(y)], [(0, Came(y))], AllTasks(y), {1, 2, 3},
                  {0, 1})
  {
    assert {0} + {1} == {0, 1};
    assert w.s.runs - {y.query} == map[];
  }

  function OverlapSteps(y: Story): seq<Step> {
    AskedSteps(y) + Acting(DoApprove(y.query)) + Writing(0) + Hearing(Answer(y)) + Writing(1)
  }

  /**
   A row that is told the outcome of the wrong run. Whatever the statement, the
   refusal and the result: connect, run, be refused, say yes before the refusal's
   row is written. Both rows are written and both runs are over; the row of the
   refused run says that it ran, and the row of the run that ran says nothing.
   */
  lemma AnOverlapTellsTheWrongRow(g: Wiring, y: Story)
    requires Connectable(g, y)
    ensures Possible(Begun(g), OverlapSteps(y))
    ensures var w := After(Begun(g), OverlapSteps(y));
            && w.s.outside.started == [RunIn(y), RunIn(y)] && w.answered == {0, 1}
            && w.s.queries == map[y.query := HasRows(y)]
            && w.s.outside.settled == [(0, Came(y))] && w.s.runs == map[] && w.mailbox == []
  {
    hide TakenIn, HeardIn, WrittenIn, Legal, NeverReused, After, RepliesTo, Acting, Hearing, Writing, Stage, AskedSteps,
         Came, FirstTasks, AllTasks, Waits, Running, HasRows;
    var w0, yes := Begun(g), DoApprove(y.query);
    AskedIs(g, y);
    var w4 := After(w0, AskedSteps(y));
    StageRests(w4, y, Waits(y), map[y.query := Starting(Some(REFUSED))], [RunIn(y)], [], FirstTasks(y), {1, 2}, {});
    Acts(w4, yes);
    Approves(w4, y, map[y.query := Starting(Some(REFUSED))], [], {});
    var w5 := TakenIn(w4, yes);
    StageShows(w5, y, Running(y), map[y.query := Starting(None)], [RunIn(y), RunIn(y)], [], AllTasks(y), {1, 2}, {});
    Writes(w5, 0);
    WritesFirst(w5, y);
    var w6 := WrittenIn(w5, 0);
    StageRests(w6, y, Running(y), map[y.query := Written(0)], [RunIn(y), RunIn(y)], [], AllTasks(y), {1, 2}, {0});
    EndsWithFirst(w6, y);
    Hears(w6, Answer(y));
    var w7 := HeardIn(w6, Answer(y));
    StageShows(w7, y, HasRows(y), map[], [RunIn(y), RunIn(y)], [(0, Came(y))], AllTasks(y), {1, 2, 3}, {0});
    Writes(w7, 1);
    WritesForNobody(w7, y);
    StageShows(WrittenIn(w7, 1), y, HasRows(y), map[], [RunIn(y), RunIn(y)], [(0, Came(y))], AllTasks(y), {1, 2, 3},
               {0, 1});
    PossibleThen(w0, AskedSteps(y), Acting(yes));
    PossibleThen(w0, AskedSteps(y) + Acting(yes), Writing(0));
    PossibleThen(w0, AskedSteps(y) + Acting(yes) + Writing(0), Hearing(Answer(y)));
    PossibleThen(w0, AskedSteps(y) + Acting(yes) + Writing(0) + Hearing(Answer(y)), Writing(1));
  }

  lemma StageShows(w: World, y: Story, query: Query, runs: map<QueryId, Recording>, started: seq<RunStart>,
                   settled: seq<(RowId, RunOutcome)>, spawned: map<BusyId, Task>, replied: set<BusyId>,
                       answered: set<RowId>)
    requires Stage(w, y, query, runs, started, settled, spawned, replied, answered)
    ensures Resting(w) && w.s.outside.started == started && w.answered == answered && w.s.outside.settled == settled
    ensures w.s.runs == runs && w.s.queries == map[y.query := query]
  {
  }

  // ── the same with the row written first ─────────────────────────────────

  lemma WritesRefused(w: World, y: Story)
    requires Stage(w, y, Waits(y), map[y.query := Starting(Some(REFUSED))], [RunIn(y)], [], FirstTasks(y), {1, 2}, {})
    ensures Stage(WrittenIn(w, 0), y, Waits(y), map[], [RunIn(y)], [(0, REFUSED)], FirstTasks(y), {1, 2}, {0})
  {
    assert {} + {0} == {0};
    assert map[y.query := Starting(Some(REFUSED))] - {y.query} == map[];
  }

  lemma EndsWaiting(w: World, y: Story)
    requires Stage(w, y, Running(y), map[y.query := Starting(None)], [RunIn(y), RunIn(y)], [(0, REFUSED)], AllTasks(y),
                   {1, 2}, {0})
    ensures RepliesTo(Answer(y), w)
    ensures Stage(HeardIn(w, Answer(y)), y, HasRows(y), map[y.query := Starting(Some(Came(y)))], [RunIn(y), RunIn(y)],
                  [(0, REFUSED)], AllTasks(y), {1, 2, 3}, {0})
  {
    hide Except, New;
  }

  lemma WritesSecond(w: World, y: Story)
    requires Stage(w, y, HasRows(y), map[y.query := Starting(Some(Came(y)))], [RunIn(y), RunIn(y)], [(0, REFUSED)],
                   AllTasks(y),
                   {1, 2, 3}, {0})
    ensures Stage(WrittenIn(w, 1), y, HasRows(y), map[], [RunIn(y), RunIn(y)], [(0, REFUSED), (1, Came(y))],
                  AllTasks(y), {1, 2, 3},
                  {0, 1})
  {
    assert {0} + {1} == {0, 1};
    assert map[y.query := Starting(Some(Came(y)))] - {y.query} == map[];
  }

  function ApartSteps(y: Story): seq<Step> {
    AskedSteps(y) + Writing(0) + Acting(DoApprove(y.query)) + Hearing(Answer(y)) + Writing(1)
  }

  /** The same people, the same replies, with the yes behind the row: each row is told of its own run. */
  lemma WaitingTellsTheRightRows(g: Wiring, y: Story)
    requires Connectable(g, y)
    ensures Possible(Begun(g), ApartSteps(y))
    ensures var w := After(Begun(g), ApartSteps(y));
            && w.s.outside.started == [RunIn(y), RunIn(y)] && w.answered == {0, 1}
            && w.s.queries == map[y.query := HasRows(y)]
            && w.s.outside.settled == [(0, REFUSED), (1, Came(y))] && w.s.runs == map[] && w.mailbox == []
  {
    hide TakenIn, HeardIn, WrittenIn, Legal, NeverReused, After, RepliesTo, Acting, Hearing, Writing, Stage, AskedSteps,
         Came, FirstTasks, AllTasks, Waits, Running, HasRows;
    var w0, yes := Begun(g), DoApprove(y.query);
    AskedIs(g, y);
    var w4 := After(w0, AskedSteps(y));
    StageShows(w4, y, Waits(y), map[y.query := Starting(Some(REFUSED))], [RunIn(y)], [], FirstTasks(y), {1, 2}, {});
    Writes(w4, 0);
    WritesRefused(w4, y);
    var w5 := WrittenIn(w4, 0);
    StageRests(w5, y, Waits(y), map[], [RunIn(y)], [(0, REFUSED)], FirstTasks(y), {1, 2}, {0});
    Acts(w5, yes);
    Approves(w5, y, map[], [(0, REFUSED)], {0});
    var w6 := TakenIn(w5, yes);
    StageRests(w6, y, Running(y), map[y.query := Starting(None)], [RunIn(y), RunIn(y)], [(0, REFUSED)], AllTasks(y),
               {1, 2}, {0});
    EndsWaiting(w6, y);
    Hears(w6, Answer(y));
    var w7 := HeardIn(w6, Answer(y));
    StageShows(w7, y, HasRows(y), map[y.query := Starting(Some(Came(y)))], [RunIn(y), RunIn(y)], [(0, REFUSED)],
               AllTasks(y),
               {1, 2, 3}, {0});
    Writes(w7, 1);
    WritesSecond(w7, y);
    StageShows(WrittenIn(w7, 1), y, HasRows(y), map[], [RunIn(y), RunIn(y)], [(0, REFUSED), (1, Came(y))], AllTasks(y),
               {1, 2, 3},
               {0, 1});
    PossibleThen(w0, AskedSteps(y), Writing(0));
    PossibleThen(w0, AskedSteps(y) + Writing(0), Acting(yes));
    PossibleThen(w0, AskedSteps(y) + Writing(0) + Acting(yes), Hearing(Answer(y)));
    PossibleThen(w0, AskedSteps(y) + Writing(0) + Acting(yes) + Hearing(Answer(y)), Writing(1));
  }

  // ── a reply that comes late ─────────────────────────────────────────────

  function Late(y: Story): Event { Ran(y.query, 2, Success(RanRows(y.result))) }

  /** The reply is on its way when somebody cancels. */
  function GivenUpSteps(y: Story): seq<Step> {
    SentSteps(y) + [Completed(Late(y))] + Acting(DoCancel(2))
  }

  /** And is read after it, before the row has been written. */
  function LateSteps(y: Story): seq<Step> {
    GivenUpSteps(y) + [Received] + Writing(0)
  }

  lemma Replies(w: World, y: Story)
    requires Stage(w, y, Running(y), map[y.query := Starting(None)], [RunIn(y)], [], FirstTasks(y), {1}, {})
    ensures RepliesTo(Late(y), w)
  {
  }

  /** A query that loads has a row, and there is only one it can be. */
  lemma ItsRow(w: World, y: Story)
    requires Sane(w) && w.s.outside.spawned == FirstTasks(y) && y.query in w.s.queries
    requires w.s.queries[y.query].data.Loading?
    ensures RowOf(w.s.busy, 2) == Some(BusyItem(2, OfQuery(y.query)))
  {
    hide PagesTracked, SearchTracked, MailGenuine, NoReplyLost, Mirrors, Distinct;
    assert LoadingAt(w.s, OfQuery(y.query));
    var b :| b in w.s.tasks && OwnerOf(w.s.tasks[b]) == OfQuery(y.query);
    assert b in w.s.outside.spawned;
    TaskOfRow(w.s, b);
  }

  /** What the cancelled run leaves: the query has failed, and its row is to be told that it was cancelled. */
  predicate GivenUp(w: World, y: Story) {
    && Listening(w) && w.mailbox == [Late(y)] && w.s.library && w.answered == {}
    && w.s.queries == map[y.query := Running(y).(data := Failed(CANCELLED))]
    && w.s.runs == map[y.query := Starting(Some(RunCancelled))]
    && w.s.outside.started == [RunIn(y)] && w.s.outside.settled == [] && 2 !in w.s.tasks
  }

  lemma GivesUp(w: World, y: Story)
    requires Stage(w, y, Running(y), map[y.query := Starting(None)], [RunIn(y)], [], FirstTasks(y), {1}, {}) && Sane(w)
    ensures RepliesTo(Late(y), w) && Listening(Next(w, Completed(Late(y))))
    ensures GivenUp(TakenIn(Next(w, Completed(Late(y))), DoCancel(2)), y)
  {
    hide Sane, RowOf, Except;
    Replies(w, y);
    ItsRow(w, y);
  }

  /** The late reply: what was to be told is replaced. */
  lemma ReadsLate(w: World, y: Story)
    requires GivenUp(w, y)
    ensures Enabled(w, Received) && EndsAgain(w, Received, y.query)
    ensures var w' := Next(w, Received);
            && Resting(w') && w'.s.library && w'.answered == {} && w'.s.queries == map[y.query := HasRows(y)]
            && w'.s.runs == map[y.query := Starting(Some(Came(y)))]
            && w'.s.outside.started == [RunIn(y)] && w'.s.outside.settled == []
  {
    hide Except, New;
  }

  lemma WritesLate(w: World, y: Story)
    requires Resting(w) && w.s.library && w.answered == {} && w.s.queries == map[y.query := HasRows(y)]
    requires w.s.runs == map[y.query := Starting(Some(Came(y)))] && w.s.outside.started == [RunIn(y)]
    requires w.s.outside.settled == []
    ensures var w' := WrittenIn(w, 0);
            && w'.s.outside.settled == [(0, Came(y))] && w'.s.runs == map[]
            && w'.s.queries == map[y.query := HasRows(y)]
            && w'.answered == {0} && w'.s.outside.started == [RunIn(y)]
  {
    assert {} + {0} == {0};
    assert w.s.runs - {y.query} == map[];
  }

  /**
   A cancel that the history never hears of. Whatever the statement and the
   result: connect, run, and cancel while the reply is on its way. Then the row is
   to be told that the run was cancelled; the reply is read, and the row is told
   that it ran. Nobody approved anything.
   */
  lemma ALateReplyReplacesACancel(g: Wiring, y: Story)
    requires Connectable(g, y)
    ensures Possible(Begun(g), GivenUpSteps(y)) && Possible(Begun(g), LateSteps(y))
    ensures var w := After(Begun(g), GivenUpSteps(y));
            && w.s.runs == map[y.query := Starting(Some(RunCancelled))] && w.s.outside.settled == []
            && Enabled(w, Received) && EndsAgain(w, Received, y.query)
    ensures var w := After(Begun(g), LateSteps(y));
            && w.s.outside.started == [RunIn(y)] && w.answered == {0} && w.s.queries == map[y.query := HasRows(y)]
            && w.s.outside.settled == [(0, Came(y))] && w.s.runs == map[]
  {
    hide TakenIn, WrittenIn, Legal, NeverReused, After, RepliesTo, SentSteps, Acting, Writing, Stage, Came, FirstTasks,
         Running, HasRows, Sane, EndsAgain, Handle;
    var w0, late, cancel := Begun(g), Late(y), DoCancel(2);
    SentIs(g, y);
    var w3 := After(w0, SentSteps(y));
    BegunIsSane(g);
    RunIsSane(w0, SentSteps(y));
    GivesUp(w3, y);
    OneStep(w3, Completed(late));
    var w4 := Next(w3, Completed(late));
    Acts(w4, cancel);
    var w5 := TakenIn(w4, cancel);
    PossibleThen(w0, SentSteps(y), [Completed(late)]);
    PossibleThen(w0, SentSteps(y) + [Completed(late)], Acting(cancel));
    ReadsLate(w5, y);
    OneStep(w5, Received);
    var w6 := Next(w5, Received);
    PossibleThen(w0, GivenUpSteps(y), [Received]);
    WritesLate(w6, y);
    Writes(w6, 0);
    PossibleThen(w0, GivenUpSteps(y) + [Received], Writing(0));
  }
}
