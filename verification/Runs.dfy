/**
 The store and everything around it as one transition system: callers that
 dispatch, tasks that reply, the library that writes rows, and the loop of
 crates/sqlake-app/src/store.rs that takes from either queue in any order.

 A task that was aborted may have sent its reply already, or be about to. Any
 task ever spawned may therefore reply, once, at any later time.
 */
module Runs {
  import opened Wrappers
  import opened Store

  datatype World = World(
    s: State,
    queue: seq<(Action, Issuer)>,
    sent: nat,
    mailbox: seq<Event>,
    /** What has happened, which nothing in the program reads. */
    log: seq<(Action, Issuer)>,
    received: seq<Event>,
    replied: set<BusyId>,
    answered: set<RowId>
  )

  datatype Step =
    /** Somebody's handle puts an action on the queue. */
    | Dispatched(action: Action, issuer: Issuer)
    /** The loop takes an action. */
    | Acted
    /** A task sends its reply. */
    | Completed(reply: Event)
    /** The loop takes an event. */
    | Received
    /** The library wrote a history row, or could not. */
    | RowAnswered(row: RowId, failed: Option<AppError>)

  /** What a session is given: the page size, whether it keeps anything, and the profiles with a driver or without. */
  datatype Wiring = Wiring(pageSize: nat, library: bool, profiles: map<string, bool>)

  function Begun(g: Wiring): World {
    World(Start(g.pageSize, g.library, g.profiles), [], 0, [], [], [], {}, {})
  }

  /** A reply to that task. A session is known by the task that opened it. */
  predicate RepliesTo(e: Event, w: World) {
    && !e.Recorded?
    && e.busy in w.s.outside.spawned
    && e.busy !in w.replied
    && Fits(e, w.s.outside.spawned[e.busy])
    && (e.Connected? && e.reply.Success? ==> e.reply.value.session.id == e.busy)
  }

  predicate Enabled(w: World, step: Step) {
    match step
    case Dispatched(_, _) => true
    case Acted => !w.s.shouldQuit && w.queue != []
    case Completed(e) => RepliesTo(e, w)
    case Received => !w.s.shouldQuit && w.mailbox != []
    case RowAnswered(row, _) => row < |w.s.outside.started| && row !in w.answered
  }

  function Ordinal(w: World): nat { w.sent + 1 }

  function RowReply(w: World, row: RowId, failed: Option<AppError>): Event
    requires row < |w.s.outside.started|
  {
    Recorded(w.s.outside.started[row].query, if failed.Some? then Failure(failed.value) else Success(row))
  }

  function Next(w: World, step: Step): World
    requires Enabled(w, step)
  {
    match step
    case Dispatched(action, issuer) =>
      w.(queue := w.queue + [(action, issuer)], sent := w.sent + 1, log := w.log + [(action, issuer)])
    case Acted =>
      w.(s := Apply(w.s.(applied := w.s.applied + 1), w.queue[0].0, w.queue[0].1), queue := w.queue[1..])
    case Completed(e) =>
      w.(mailbox := w.mailbox + [e], replied := w.replied + {e.busy})
    case Received =>
      w.(s := Handle(w.s, w.mailbox[0]), mailbox := w.mailbox[1..], received := w.received + [w.mailbox[0]])
    case RowAnswered(row, failed) =>
      w.(mailbox := w.mailbox + [RowReply(w, row, failed)], answered := w.answered + {row})
  }

  /** Every step can be taken where it is taken. */
  predicate Legal(w: World, steps: seq<Step>)
    decreases |steps|
  {
    steps == [] || (Enabled(w, steps[0]) && Legal(Next(w, steps[0]), steps[1..]))
  }

  /** A preview is there before and after every step. */
  predicate Stays(w: World, steps: seq<Step>, rel: Relation)
    requires Legal(w, steps)
    decreases |steps|
  {
    rel in w.s.previews && (steps == [] || Stays(Next(w, steps[0]), steps[1..], rel))
  }

  function After(w: World, steps: seq<Step>): World
    requires Legal(w, steps)
    decreases |steps|
  {
    if steps == [] then w else After(Next(w, steps[0]), steps[1..])
  }
}
