/**
 Waiting for the store: crates/sqlake-app/src/wait.rs, and why the ordinal that
 a dispatch hands back is enough to wait for that very action.
 */
module Barrier {
  import opened Wrappers
  import opened Pages
  import opened Store
  import opened Runs
  import opened Rows
  import opened Frames
  import opened Loading

  // ── the wait ────────────────────────────────────────────────────────────

  datatype WaitError = TimedOut | Stopped

  predicate HasApplied(s: State, ordinal: nat) {
    s.applied >= ordinal
  }

  /**
   `seen` are the snapshots this caller gets to look at: the one published when
   it starts, and then whichever is the latest each time it is woken. It is
   woken no more when its time is up, or when the store has stopped.
   */
  method Settle(published: seq<State>, seen: seq<nat>, stopped: bool, done: State -> bool)
    returns (r: Result<State, WaitError>)
    requires forall i :: 0 <= i < |seen| ==> seen[i] < |published|
    ensures r.Success? ==>
              exists i :: 0 <= i < |seen| && r.value == published[seen[i]] && done(r.value)
                          && forall j :: 0 <= j < i ==> !done(published[seen[j]])
    ensures r.Failure? ==> forall j :: 0 <= j < |seen| ==> !done(published[seen[j]])
    ensures r.Failure? ==> r.error == if stopped then Stopped else TimedOut
  {
    var i := 0;
    while i < |seen|
      invariant i <= |seen|
      invariant forall j :: 0 <= j < i ==> !done(published[seen[j]])
    {
      var snapshot := published[seen[i]];
      if done(snapshot) {
        return Success(snapshot);
      }
      i := i + 1;
    }
    return Failure(if stopped then Stopped else TimedOut);
  }

  // ── only the loop counts ────────────────────────────────────────────────

  lemma ApplyCounts(s: State, a: Action, issuer: Issuer)
    ensures Apply(s, a, issuer).applied == s.applied
  {
    hide Apply, Disconnect, SameBut, Named, Orphans;
    Applied(s, a, issuer);
    if a.DoDisconnect? {
      DisconnectShows(s, a.conn);
    } else {
      ApplyTouches(s, a, issuer);
    }
  }

  lemma HandleCounts(s: State, e: Event)
    ensures Handle(s, e).applied == s.applied
  {
    hide Handle, DropAll, SameBut, Told, SessionDied;
    if e.Previewed? {
      PreviewedTouches(s, e);
      SessionDiedTouches(Told(Drop(s, e.busy), e.rel, e.page, e.rows), e.rel.conn, T.ROOT);
    } else {
      HandleTouches(s, e);
    }
  }

  // ── the ordinal is the position ─────────────────────────────────────────

  /** What is queued is what was dispatched and not yet applied, in order. */
  predicate InOrder(w: World) {
    && w.s.applied <= |w.log|
    && w.queue == w.log[w.s.applied..]
    && w.sent == |w.log|
  }

  lemma StepIsInOrder(w: World, step: Step)
    requires InOrder(w) && Enabled(w, step)
    ensures InOrder(Next(w, step)) && w.log <= Next(w, step).log
    ensures Next(w, step).s.applied == w.s.applied + if step.Acted? then 1 else 0
    ensures step.Acted? ==> w.s.applied < |w.log| && w.queue[0] == w.log[w.s.applied]
  {
    hide Apply, Handle, RepliesTo;
    match step {
      case Acted => ApplyCounts(w.s.(applied := w.s.applied + 1), w.queue[0].0, w.queue[0].1);
      case Received => HandleCounts(w.s, w.mailbox[0]);
      case Dispatched(_, _) =>
      case Completed(_) =>
      case RowAnswered(_, _) =>
    }
  }

  lemma {:induction false} RunIsInOrder(w: World, steps: seq<Step>)
    requires InOrder(w) && Legal(w, steps)
    ensures InOrder(After(w, steps)) && w.log <= After(w, steps).log && w.s.applied <= After(w, steps).s.applied
    decreases |steps|
  {
    hide InOrder, Enabled, Next;
    if steps != [] {
      StepIsInOrder(w, steps[0]);
      RunIsInOrder(Next(w, steps[0]), steps[1..]);
    }
  }

  /** Within these steps the loop took that entry of the log, as the one that makes the count that ordinal. */
  predicate Takes(w: World, steps: seq<Step>, ordinal: nat, entry: (Action, Issuer))
    requires Legal(w, steps)
    decreases |steps|
  {
    steps != []
    && ((steps[0].Acted? && w.queue[0] == entry && Next(w, steps[0]).s.applied == ordinal)
        || Takes(Next(w, steps[0]), steps[1..], ordinal, entry))
  }

  /** The count reaches an ordinal exactly by taking the entry with that ordinal. */
  lemma {:induction false} ReachingIsTaking(w: World, steps: seq<Step>, ordinal: nat)
    requires InOrder(w) && Legal(w, steps) && w.s.applied < ordinal <= |w.log|
    ensures HasApplied(After(w, steps).s, ordinal) <==> Takes(w, steps, ordinal, w.log[ordinal - 1])
    decreases |steps|
  {
    hide InOrder, Enabled, Next;
    if steps != [] {
      StepIsInOrder(w, steps[0]);
      var w1 := Next(w, steps[0]);
      assert w1.log[ordinal - 1] == w.log[ordinal - 1];
      if w1.s.applied < ordinal {
        ReachingIsTaking(w1, steps[1..], ordinal);
      } else {
        RunIsInOrder(w1, steps[1..]);
      }
    }
  }

  lemma BegunInOrder(g: Wiring, steps: seq<Step>)
    requires Legal(Begun(g), steps)
    ensures InOrder(After(Begun(g), steps))
  {
    hide Legal, After;
    RunIsInOrder(Begun(g), steps);
  }

  /**
   The barrier is exact. Whoever else dispatches, before or after: a later state
   has applied the ordinal that a dispatch handed back if and only if, since
   then, the loop has taken that very action, and no other under that ordinal.
   */
  lemma TheBarrierIsExact(g: Wiring, before: seq<Step>, action: Action, issuer: Issuer, later: seq<Step>)
    requires Legal(Begun(g), before)
    requires Legal(Next(After(Begun(g), before), Dispatched(action, issuer)), later)
    ensures var w := After(Begun(g), before);
            var w1 := Next(w, Dispatched(action, issuer));
            && !HasApplied(w1.s, Ordinal(w))
            && (HasApplied(After(w1, later).s, Ordinal(w)) <==> Takes(w1, later, Ordinal(w), (action, issuer)))
  {
    hide Legal, After, Begun, Takes;
    BegunInOrder(g, before);
    var w := After(Begun(g), before);
    StepIsInOrder(w, Dispatched(action, issuer));
    ReachingIsTaking(Next(w, Dispatched(action, issuer)), later, Ordinal(w));
  }

  /** What is published over a run: the state there is, and the state after each step. */
  function StatesOf(w: World, steps: seq<Step>): seq<State>
    requires Legal(w, steps)
    decreases |steps|
  {
    [w.s] + if steps == [] then [] else StatesOf(Next(w, steps[0]), steps[1..])
  }

  /** Each is the state after some first part of the run. */
  lemma {:induction false} PublishedAfter(w: World, steps: seq<Step>, k: nat)
    requires Legal(w, steps) && k < |StatesOf(w, steps)|
    ensures k <= |steps| && Legal(w, steps[..k]) && StatesOf(w, steps)[k] == After(w, steps[..k]).s
    decreases k
  {
    hide Enabled, Next;
    if k == 0 {
      assert steps[..0] == [];
    } else {
      PublishedAfter(Next(w, steps[0]), steps[1..], k - 1);
      assert steps[..k][1..] == steps[1..][..k - 1];
    }
  }

  /** The snapshot is the state after some first part of the run, within which the loop took that very entry. */
  ghost predicate AtOrAfter(w: World, steps: seq<Step>, snapshot: State, ordinal: nat, entry: (Action, Issuer))
    requires Legal(w, steps)
  {
    exists k ::
      && 0 <= k <= |steps| && Legal(w, steps[..k])
      && snapshot == After(w, steps[..k]).s && Takes(w, steps[..k], ordinal, entry)
  }

  lemma AppliedIsAfter(w: World, action: Action, issuer: Issuer, later: seq<Step>, k: nat)
    requires InOrder(w) && Legal(Next(w, Dispatched(action, issuer)), later)
    requires var w1 := Next(w, Dispatched(action, issuer));
             k < |StatesOf(w1, later)| && HasApplied(StatesOf(w1, later)[k], Ordinal(w))
    ensures var w1 := Next(w, Dispatched(action, issuer));
            AtOrAfter(w1, later, StatesOf(w1, later)[k], Ordinal(w), (action, issuer))
  {
    hide Legal, After, StatesOf, Takes;
    var w1 := Next(w, Dispatched(action, issuer));
    PublishedAfter(w1, later, k);
    StepIsInOrder(w, Dispatched(action, issuer));
    ReachingIsTaking(w1, later[..k], Ordinal(w));
  }

  /**
   The action is queued, and the wait is for its ordinal and for whatever else the
   caller waits for. What is published is what the store shows as it goes on,
   whoever else dispatches: a snapshot that comes back is the state at or after
   the taking of that very action.
   */
  method DispatchAndSettle(w: World, action: Action, issuer: Issuer, ghost later: seq<Step>, published: seq<State>,
                           seen: seq<nat>,
                           stopped: bool, done: State -> bool)
    returns (w': World, r: Result<State, WaitError>)
    requires InOrder(w) && Legal(Next(w, Dispatched(action, issuer)), later)
    requires published == StatesOf(Next(w, Dispatched(action, issuer)), later)
    requires forall i :: 0 <= i < |seen| ==> seen[i] < |published|
    ensures w' == Next(w, Dispatched(action, issuer))
    ensures r.Success? ==> done(r.value) && AtOrAfter(w', later, r.value, Ordinal(w), (action, issuer))
    ensures r.Failure? ==>
              forall j :: 0 <= j < |seen| ==> !(HasApplied(published[seen[j]], Ordinal(w)) && done(published[seen[j]]))
  {
    hide Legal, StatesOf, AtOrAfter;
    var ordinal := Ordinal(w);
    w' := Next(w, Dispatched(action, issuer));
    r := Settle(published, seen, stopped, s => HasApplied(s, ordinal) && done(s));
    if r.Success? {
      ghost var i :| 0 <= i < |seen| && r.value == published[seen[i]];
      AppliedIsAfter(w, action, issuer, later, seen[i]);
    }
  }

  // ── a request that was made is a request that is counted ────────────────

  /** No request finished, or one did and was counted; and what was awaited is still, or finished. */
  predicate Counts(p: Preview, p': Preview) {
    p'.attempts > p.attempts || (p'.attempts == p.attempts && (p.pending.Some? ==> p'.pending.Some?))
  }

  /** The preview is still there, and no request for it went uncounted. */
  predicate CountsAt(s: State, s': State, rel: Relation) {
    rel in s.previews && rel in s'.previews ==> Counts(s.previews[rel], s'.previews[rel])
  }

  lemma TouchedCounts(s: State, s': State, o: Owner, rel: Relation)
    requires Touches(s, s', o) && o != OfPreview(rel)
    ensures CountsAt(s, s', rel)
  {
  }

  lemma FetchCountsAt(s: State, s1: State, rel: Relation, page: PageRequest, append: bool)
    requires rel in s.previews ==> rel in s1.previews && s1.previews[rel].attempts == s.previews[rel].attempts
    requires SessionOf(s1, rel.conn).Some?
    ensures CountsAt(s, Fetch(s1, rel, page, append), rel)
    ensures rel in s1.previews ==>
              rel in Fetch(s1, rel, page, append).previews && Fetch(s1, rel, page, append).previews[rel].pending.Some?
              && Fetch(s1, rel, page, append).previews[rel].attempts == s1.previews[rel].attempts
  {
    hide Except;
  }

  lemma PreviewsCount(s: State, rel: Relation, column: nat)
    ensures CountsAt(s, PreviewTable(s, rel), rel) && CountsAt(s, SortPreview(s, rel, column), rel)
    ensures CountsAt(s, LoadMore(s, rel), rel) && CountsAt(s, ForgetPreview(s, rel), rel)
  {
    hide Fetch, NextSort, DropAll;
    if SessionOf(s, rel.conn).Some? && rel in s.previews {
      var p := s.previews[rel];
      var page := FirstPage(s, p.sort);
      FetchCountsAt(s, s.(previews := s.previews[rel :=
                      p.(page := page, nextOffset := 0, data := Loading, loadedRows := 0, exhausted := false)]),
                      rel, page, false);
      var sort := Some(NextSort(p, column));
      FetchCountsAt(s, s.(previews := s.previews[rel :=
                      p.(sort := sort, data := Loading, loadedRows := 0, nextOffset := 0, exhausted := false)]),
                    rel, FirstPage(s, sort), false);
      FetchCountsAt(s, s, rel, p.page.(offset := p.nextOffset), true);
    } else if rel in s.previews {
      NoFetch(s, rel);
    }
  }

  lemma NoFetch(s: State, rel: Relation)
    requires SessionOf(s, rel.conn).None?
    ensures LoadMore(s, rel) == s
  {
  }

  lemma CancelCounts(s: State, id: BusyId, rel: Relation)
    ensures CountsAt(s, Cancel(s, id), rel)
  {
    hide DropAll, RowOf, Abandon, Touches;
    DropShows(s, {id});
    CancelTouches(s, id);
    if Subject(s, DoCancel(id)) == OfPreview(rel) {
      AbandonedPreview(Drop(s, id), rel);
    } else {
      TouchedCounts(s, Cancel(s, id), Subject(s, DoCancel(id)), rel);
    }
  }

  lemma AbandonedPreview(s: State, rel: Relation)
    ensures CountsAt(s, Abandon(s, OfPreview(rel), CANCELLED), rel)
  {
  }

  lemma DisconnectCounts(s: State, c: ConnId, rel: Relation)
    ensures CountsAt(s, Disconnect(s, c), rel)
  {
    hide Disconnect, Orphans, Named, SameBut;
    DisconnectShows(s, c);
  }

  lemma ApplyCountsAt(s: State, a: Action, issuer: Issuer, rel: Relation)
    ensures CountsAt(s, Apply(s, a, issuer), rel)
  {
    hide Disconnect, PreviewTable, SortPreview, LoadMore, CountsAt, ForgetPreview, Cancel, Touches, Apply, RowOf;
    Applied(s, a, issuer);
    if a.DoDisconnect? {
      DisconnectCounts(s, a.conn, rel);
    } else if a.DoCancel? {
      CancelCounts(s, a.id, rel);
    } else {
      ApplyTouches(s, a, issuer);
      if Subject(s, a) != OfPreview(rel) {
        TouchedCounts(s, Apply(s, a, issuer), Subject(s, a), rel);
      } else if a.DoSort? {
        PreviewsCount(s, rel, a.column);
      } else {
        PreviewsCount(s, rel, 0);
      }
    }
  }

  lemma ToldCounts(s: State, rel: Relation, page: PageRequest, rows: Result<ResultSet<Row>, AppError>)
    ensures CountsAt(s, Told(s, rel, page, rows), rel)
  {
    hide Append, New, IsEnd, Reached, Message;
  }

  lemma HandleCountsAt(s: State, e: Event, rel: Relation)
    ensures CountsAt(s, Handle(s, e), rel)
  {
    hide DropAll, Told, OnPreviewed, Touches, SessionDied, Handle;
    if e.Previewed? {
      var told := Told(Drop(s, e.busy), e.rel, e.page, e.rows);
      DropShows(s, {e.busy});
      PreviewedTouches(s, e);
      SessionDiedPreviews(told, e.rel.conn);
      if e.rel == rel {
        ToldCounts(Drop(s, e.busy), rel, e.page, e.rows);
      } else {
        TouchedCounts(s, told, OfPreview(e.rel), rel);
      }
    } else {
      HandleTouches(s, e);
      TouchedCounts(s, Handle(s, e), About(e), rel);
    }
  }

  lemma StepCountsAt(w: World, step: Step, rel: Relation)
    requires Enabled(w, step)
    ensures CountsAt(w.s, Next(w, step).s, rel)
  {
    hide Apply, Handle, RepliesTo;
    match step {
      case Acted => ApplyCountsAt(w.s.(applied := w.s.applied + 1), w.queue[0].0, w.queue[0].1, rel);
      case Received => HandleCountsAt(w.s, w.mailbox[0], rel);
      case Dispatched(_, _) =>
      case Completed(_) =>
      case RowAnswered(_, _) =>
    }
  }

  lemma {:induction false} RunCountsRequests(w: World, steps: seq<Step>, rel: Relation)
    requires Legal(w, steps) && Stays(w, steps, rel)
    ensures rel in After(w, steps).s.previews && Counts(w.s.previews[rel], After(w, steps).s.previews[rel])
    decreases |steps|
  {
    hide Enabled, Next;
    if steps != [] {
      StepCountsAt(w, steps[0], rel);
      RunCountsRequests(Next(w, steps[0]), steps[1..], rel);
    }
  }

  /** From any state of a run in which the preview is waiting for a page. */
  lemma SettledCounts(w: World, later: seq<Step>, rel: Relation)
    requires Sane(w) && Legal(w, later) && Stays(w, later, rel) && w.s.previews[rel].pending.Some?
    ensures var w1 := After(w, later);
            rel in w1.s.previews
            && (Loading.Settled(w1.s, OfPreview(rel)) ==> w1.s.previews[rel].attempts > w.s.previews[rel].attempts)
  {
    hide Legal, After, Stays, Sane, Loading.Settled;
    var w1 := After(w, later);
    RunIsSane(w, later);
    StaysHere(w, later, rel);
    RunCountsRequests(w, later, rel);
    if w1.s.previews[rel].pending.Some? {
      PendingHasRow(w1, rel);
    }
  }

  /**
   A request is waited for by waiting for the row to go: once a preview is
   waiting for a page, any later state in which the same preview has no row has
   counted more requests as finished.
   */
  lemma SettledIsCounted(g: Wiring, before: seq<Step>, later: seq<Step>, rel: Relation)
    requires Legal(Begun(g), before) && Legal(After(Begun(g), before), later)
    requires Stays(After(Begun(g), before), later, rel)
    requires After(Begun(g), before).s.previews[rel].pending.Some?
    ensures var w := After(Begun(g), before);
            var w1 := After(w, later);
            rel in w1.s.previews
            && (Loading.Settled(w1.s, OfPreview(rel)) ==> w1.s.previews[rel].attempts > w.s.previews[rel].attempts)
  {
    hide Legal, After, Begun, Stays, Sane, Loading.Settled;
    BegunIsSane(g);
    RunIsSane(Begun(g), before);
    SettledCounts(After(Begun(g), before), later, rel);
  }

  lemma StaysHere(w: World, steps: seq<Step>, rel: Relation)
    requires Legal(w, steps) && Stays(w, steps, rel)
    ensures rel in w.s.previews
  {
  }

  lemma PendingHasRow(w: World, rel: Relation)
    requires Sane(w) && rel in w.s.previews && w.s.previews[rel].pending.Some?
    ensures !Loading.Settled(w.s, OfPreview(rel))
  {
    hide Tracked, SearchTracked, MailGenuine, NoReplyLost, Mirrors;
    var b := w.s.previews[rel].pending.value.busy;
    assert PageTracked(w.s.previews[rel], rel, w.s.tasks);
    TaskOfRow(w.s, b);
    RowIsThere(w.s.busy, b);
  }

  /** A retry of a preview that failed, or a request for more that is accepted. */
  predicate Accepts(s: State, a: Action, rel: Relation) {
    && rel in s.previews && SessionOf(s, rel.conn).Some?
    && ((a == DoPreview(rel) && rel.table != [] && s.previews[rel].data.Failed?)
        || (a == DoLoadMore(rel) && s.previews[rel].data.Ready? && s.previews[rel].pending.None?
            && !s.previews[rel].exhausted))
  }

  /** Both ways of asking leave the preview waiting, with nothing counted yet. */
  lemma AskingWaits(s: State, a: Action, rel: Relation, issuer: Issuer)
    requires Accepts(s, a, rel)
    ensures var s' := Apply(s, a, issuer);
            && rel in s'.previews && s'.previews[rel].pending.Some?
            && s'.previews[rel].attempts == s.previews[rel].attempts
  {
    hide Fetch;
    var p := s.previews[rel];
    var page := FirstPage(s, p.sort);
    FetchCountsAt(s, s.(previews := s.previews[rel :=
                    p.(page := page, nextOffset := 0, data := Store.Loading, loadedRows := 0, exhausted := false)]),
                    rel, page, false);
    FetchCountsAt(s, s, rel, p.page.(offset := p.nextOffset), true);
  }

  /**
   Asking, and waiting for the row to go, is waiting for the answer: the loop takes
   a retry or an accepted request for more; then any later state in which the same
   preview has no row has counted more requests than there were before.
   */
  lemma AskingIsCounted(g: Wiring, before: seq<Step>, later: seq<Step>, rel: Relation)
    requires Legal(Begun(g), before) && Enabled(After(Begun(g), before), Acted)
    requires var w := After(Begun(g), before);
             Accepts(w.s, w.queue[0].0, rel) && Legal(Next(w, Acted), later) && Stays(Next(w, Acted), later, rel)
    ensures var w := After(Begun(g), before);
            var w1 := After(Next(w, Acted), later);
            rel in w1.s.previews
            && (Loading.Settled(w1.s, OfPreview(rel)) ==> w1.s.previews[rel].attempts > w.s.previews[rel].attempts)
  {
    hide Legal, After, Begun, Stays, Sane, Loading.Settled, Apply;
    var w := After(Begun(g), before);
    BegunIsSane(g);
    RunIsSane(Begun(g), before);
    StepIsSane(w, Acted);
    AskingWaits(w.s.(applied := w.s.applied + 1), w.queue[0].0, rel, w.queue[0].1);
    SettledCounts(Next(w, Acted), later, rel);
  }
}
