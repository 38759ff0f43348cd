/**
 A yes is used once: over any run, even one that uses query ids again, the
 approved runs of a question are no more than the times it was asked, and a
 question still waiting is one of those times.
 */
module Consent {
  import opened Wrappers
  import opened Store
  import opened Runs
  import opened Rows
  import opened Frames
  import opened Loading
  import opened Queries

  /** The tasks ever spawned to do exactly this. */
  function Count(spawned: map<BusyId, Task>, task: Task): nat {
    |Doing(spawned, task)|
  }

  function Doing(spawned: map<BusyId, Task>, task: Task): set<BusyId> {
    set b | b in spawned && spawned[b] == task
  }

  predicate IsRefusal(e: Event, q: QueryId, over: A.OverBudget) {
    e.Ran? && e.query == q && e.output == Success(AskFirst(over))
  }

  /** How often the query came back with that question. */
  function Refusals(received: seq<Event>, q: QueryId, over: A.OverBudget): nat {
    if received == [] then 0
    else
      Refusals(received[..|received| - 1], q, over) + if IsRefusal(received[|received| - 1], q, over) then 1 else 0
  }

  /** Whether the question is waiting for an answer. */
  function Waiting(s: State, q: QueryId, over: A.OverBudget): nat {
    if q in s.queries && s.queries[q].needsApproval == Some(over) then 1 else 0
  }

  ghost predicate Consented(w: World) {
    forall q: QueryId, over: A.OverBudget ::
      Count(w.s.outside.spawned, RunOver(q, over)) + Waiting(w.s, q, over) <= Refusals(w.received, q, over)
  }

  lemma OneMoreTask(spawned: map<BusyId, Task>, id: BusyId, task: Task, other: Task)
    requires id !in spawned
    ensures Count(spawned[id := task], other) == Count(spawned, other) + if task == other then 1 else 0
  {
    var more := spawned[id := task];
    if task == other {
      assert Doing(more, other) == Doing(spawned, other) + {id};
    } else {
      assert Doing(more, other) == Doing(spawned, other);
    }
  }

  lemma WorkCounts(s: State, s': State, ended: set<BusyId>, begun: Option<Task>, task: Task)
    requires BusyOk(s) && Works(s, s', ended, begun)
    ensures Count(s'.outside.spawned, task) == Count(s.outside.spawned, task) + if begun == Some(task) then 1 else 0
  {
    hide Count, Except, Mirrors, Distinct;
    if begun.Some? {
      OneMoreTask(s.outside.spawned, s.nextId, begun.value, task);
    }
  }

  /** No question is asked by an action. */
  ghost predicate AsksNothing(s: State, s': State) {
    forall q :: q in s'.queries && s'.queries[q].needsApproval.Some? ==>
      q in s.queries && s.queries[q].needsApproval == s'.queries[q].needsApproval
  }

  lemma TouchedAsksNothing(s: State, s': State, o: Owner)
    requires Touches(s, s', o)
    requires o.OfQuery? && o.query in s'.queries && s'.queries[o.query].needsApproval.Some? ==>
               o.query in s.queries && s.queries[o.query].needsApproval == s'.queries[o.query].needsApproval
    ensures AsksNothing(s, s')
  {
  }

  lemma RunsAskNothing(s: State, c: ConnId, q: QueryId, sql: string, issuer: Issuer)
    ensures AsksNothing(s, RunQuery(s, c, q, sql, issuer))
    ensures AsksNothing(s, EstimateQuery(s, c, q, sql))
  {
    hide Touches, RunQuery, EstimateQuery, AsksNothing;
    RunTouches(s, c, q, sql, issuer);
    if SessionOf(s, c).Some? && q !in s.queries {
      RunShows(s, c, q, sql, issuer);
    } else {
      NoRun(s, c, q, sql, issuer);
    }
    TouchedAsksNothing(s, RunQuery(s, c, q, sql, issuer), OfQuery(q));
    TouchedAsksNothing(s, EstimateQuery(s, c, q, sql), OfQuery(q));
  }

  lemma NoRun(s: State, c: ConnId, q: QueryId, sql: string, issuer: Issuer)
    requires SessionOf(s, c).None? || q in s.queries
    ensures RunQuery(s, c, q, sql, issuer) == s && EstimateQuery(s, c, q, sql) == s
  {
  }

  lemma ApproveAsksNothing(s: State, q: QueryId, issuer: Issuer)
    ensures AsksNothing(s, ApproveQuery(s, q, issuer))
  {
    hide Touches, AsksNothing, ApproveQuery, Works;
    ApproveTouches(s, q, issuer);
    if q in s.queries && SessionOf(s, s.queries[q].conn).Some? && s.queries[q].needsApproval.Some? {
      ApproveShows(s, q, issuer);
    } else {
      NoApproval(s, q, issuer);
    }
    TouchedAsksNothing(s, ApproveQuery(s, q, issuer), OfQuery(q));
  }

  lemma NoApproval(s: State, q: QueryId, issuer: Issuer)
    requires !(q in s.queries && SessionOf(s, s.queries[q].conn).Some? && s.queries[q].needsApproval.Some?)
    ensures ApproveQuery(s, q, issuer) == s
  {
  }

  lemma ForgetAsksNothing(s: State, q: QueryId)
    ensures AsksNothing(s, ForgetQuery(s, q))
  {
    hide DropAll;
    DropShows(s, OwnedBy(s.busy, OfQuery(q)));
  }

  lemma CancelAsksNothing(s: State, id: BusyId)
    ensures AsksNothing(s, Cancel(s, id))
  {
    hide Touches, AsksNothing, Cancel, RowOf;
    CancelShows(s, id);
    TouchedAsksNothing(s, Cancel(s, id), Subject(s, DoCancel(id)));
  }

  lemma DisconnectAsksNothing(s: State, c: ConnId)
    ensures AsksNothing(s, Disconnect(s, c))
  {
    hide Disconnect, Orphans, Named, SameBut;
    DisconnectShows(s, c);
  }

  lemma ApplyAsksNothing(s: State, a: Action, issuer: Issuer)
    ensures AsksNothing(s, Apply(s, a, issuer))
  {
    hide Disconnect, AsksNothing, RunQuery, EstimateQuery, ApproveQuery, ForgetQuery, Cancel, Touches, Apply;
    Applied(s, a, issuer);
    match a {
      case DoRun(c, q, sql) => RunsAskNothing(s, c, q, sql, issuer);
      case DoEstimate(c, q, sql) => RunsAskNothing(s, c, q, sql, issuer);
      case DoApprove(q) => ApproveAsksNothing(s, q, issuer);
      case DoForgetQuery(q) => ForgetAsksNothing(s, q);
      case DoDisconnect(c) => DisconnectAsksNothing(s, c);
      case DoCancel(id) => CancelAsksNothing(s, id);
      case _ =>
        ApplyTouches(s, a, issuer);
        TouchedAsksNothing(s, Apply(s, a, issuer), Subject(s, a));
    }
  }

  /** An approval takes the question it answers. */
  lemma ApprovalTakesTheQuestion(s: State, a: Action, issuer: Issuer, ended: set<BusyId>, begun: Option<Task>,
                                 q: QueryId,
                                 over: A.OverBudget)
    requires Works(s, Apply(s, a, issuer), ended, begun) && (begun.Some? ==> Starts(s, a, begun.value))
    ensures var taken := if begun == Some(RunOver(q, over)) then 1 else 0;
            Waiting(Apply(s, a, issuer), q, over) + taken <= Waiting(s, q, over)
  {
    hide Works, ApproveQuery;
    AppliedAsks(s, a, issuer, q, over);
    if begun == Some(RunOver(q, over)) {
      ApproveShows(s, q, issuer);
    }
  }

  lemma AppliedAsks(s: State, a: Action, issuer: Issuer, q: QueryId, over: A.OverBudget)
    ensures Waiting(Apply(s, a, issuer), q, over) <= Waiting(s, q, over)
  {
    hide Apply;
    ApplyAsksNothing(s, a, issuer);
  }

  lemma ActedIsConsented(w: World)
    requires Sane(w) && Consented(w) && Enabled(w, Acted)
    ensures Consented(Next(w, Acted))
  {
    hide Sane, Works, Apply, Count, Refusals, Waiting, Starts;
    var s := w.s.(applied := w.s.applied + 1);
    var w' := Next(w, Acted);
    var a, issuer := w.queue[0].0, w.queue[0].1;
    CountingIsSane(w);
    SaneRows(w.(s := s));
    var ended, begun := ApplyWorks(s, a, issuer);
    forall q: QueryId, over: A.OverBudget
      ensures Count(w'.s.outside.spawned, RunOver(q, over)) + Waiting(w'.s, q, over) <= Refusals(w'.received, q, over)
    {
      WorkCounts(s, w'.s, ended, begun, RunOver(q, over));
      ApprovalTakesTheQuestion(s, a, issuer, ended, begun, q, over);
      CountingWaits(w.s, q, over);
    }
  }

  lemma CountingWaits(s: State, q: QueryId, over: A.OverBudget)
    ensures Waiting(s.(applied := s.applied + 1), q, over) == Waiting(s, q, over)
  {
  }

  lemma SaneRows(w: World)
    requires Sane(w)
    ensures BusyOk(w.s)
  {
    hide NothingStuck, MailGenuine, NoReplyLost;
    RowsOf(w.s);
  }

  lemma OneMoreRefusal(received: seq<Event>, e: Event, q: QueryId, over: A.OverBudget)
    ensures Refusals(received + [e], q, over) == Refusals(received, q, over) + if IsRefusal(e, q, over) then 1 else 0
  {
    assert (received + [e])[..|received|] == received;
  }

  /** Only an answer that asks makes a question wait. */
  lemma HandledAsks(s: State, e: Event, q: QueryId, over: A.OverBudget)
    ensures Waiting(Handle(s, e), q, over) <= Waiting(s, q, over) + if IsRefusal(e, q, over) then 1 else 0
  {
    hide Handle;
    if e.Ran? || e.Estimated? {
      ReplyAsks(s, e);
    } else {
      OtherEventsLeaveQueries(s, e);
    }
  }

  lemma ReceivedIsConsented(w: World)
    requires Sane(w) && Consented(w) && Enabled(w, Received)
    ensures Consented(Next(w, Received))
  {
    hide Sane, Works, Handle, Count, Refusals, Waiting, IsRefusal;
    var w' := Next(w, Received);
    var e := w.mailbox[0];
    SaneRows(w);
    HandleWorks(w.s, e);
    forall q: QueryId, over: A.OverBudget
      ensures Count(w'.s.outside.spawned, RunOver(q, over)) + Waiting(w'.s, q, over) <= Refusals(w'.received, q, over)
    {
      WorkCounts(w.s, w'.s, Ends(e), None, RunOver(q, over));
      HandledAsks(w.s, e, q, over);
      OneMoreRefusal(w.received, e, q, over);
    }
  }

  lemma {:induction false} RunIsConsented(w: World, steps: seq<Step>)
    requires Sane(w) && Consented(w) && Legal(w, steps)
    ensures Consented(After(w, steps))
    decreases |steps|
  {
    hide Sane, Count, Refusals, Waiting, Apply, Handle;
    if steps != [] {
      StepIsSane(w, steps[0]);
      match steps[0] {
        case Acted => ActedIsConsented(w);
        case Received => ReceivedIsConsented(w);
        case Dispatched(_, _) =>
        case Completed(_) =>
        case RowAnswered(_, _) =>
      }
      RunIsConsented(Next(w, steps[0]), steps[1..]);
    }
  }

  lemma BegunIsConsented(g: Wiring)
    ensures Consented(Begun(g))
  {
    forall q: QueryId, over: A.OverBudget
      ensures Count(Begun(g).s.outside.spawned, RunOver(q, over)) == 0
    {
      assert Doing(Begun(g).s.outside.spawned, RunOver(q, over)) == {};
    }
  }

  /**
   Over every run: as many approved runs of a question, and one more if it is
   waiting, as it was asked times, or fewer. What an approved run carries is the
   question that was asked, statement and all.
   */
  lemma AYesIsUsedOnce(g: Wiring, steps: seq<Step>, q: QueryId, over: A.OverBudget)
    requires Legal(Begun(g), steps)
    ensures var w := After(Begun(g), steps);
            Count(w.s.outside.spawned, RunOver(q, over)) + Waiting(w.s, q, over) <= Refusals(w.received, q, over)
  {
    hide Legal, After, Begun, Sane, Count, Refusals, Waiting;
    BegunIsSane(g);
    BegunIsConsented(g);
    RunIsConsented(Begun(g), steps);
  }
}
