/**
 The object and the laws together: what a session that is spawned publishes,
 snapshot by snapshot.
 */
module Served {
  import opened Store
  import opened Runs
  import opened Rows
  import opened Loading
  import opened Sessions
  import opened Trees
  import R = Runtime

  /** The state after so many of the steps. */
  predicate Reaches(w: World, steps: seq<Step>, n: int, s: State) {
    0 <= n <= |steps| && Legal(w, steps[..n]) && After(w, steps[..n]).s == s
  }

  /** What is published is the state after some first part of the run. */
  lemma {:induction false} PublishedIsReached(w: World, steps: seq<Step>, k: nat)
    requires Legal(w, steps) && k < |R.Published(w.s, R.TurnsOf(w, steps))|
    ensures exists n :: Reaches(w, steps, n, R.Published(w.s, R.TurnsOf(w, steps))[k])
    decreases |steps|
  {
    hide R.TurnOf, Enabled, Next;
    var w1 := Next(w, steps[0]);
    var rest := R.TurnsOf(w1, steps[1..]);
    R.StepIsATurn(w, steps[0]);
    FirstStep(w, steps);
    if steps[0].Acted? || steps[0].Received? {
      var turn := R.TurnsOf(w, steps)[0];
      assert R.TurnsOf(w, steps) == [turn] + rest;
      R.PublishedMore(w.s, turn, rest);
      if k == 0 {
        assert Reaches(w, steps, 1, R.Published(w.s, R.TurnsOf(w, steps))[k]);
      } else {
        PublishedIsReached(w1, steps[1..], k - 1);
        var n :| Reaches(w1, steps[1..], n, R.Published(w1.s, rest)[k - 1]);
        OneMoreStep(w, steps, n);
        assert Reaches(w, steps, n + 1, R.Published(w.s, R.TurnsOf(w, steps))[k]);
      }
    } else {
      assert R.TurnsOf(w, steps) == rest;
      PublishedIsReached(w1, steps[1..], k);
      var n :| Reaches(w1, steps[1..], n, R.Published(w1.s, rest)[k]);
      OneMoreStep(w, steps, n);
      assert Reaches(w, steps, n + 1, R.Published(w.s, R.TurnsOf(w, steps))[k]);
    }
  }

  lemma FirstStep(w: World, steps: seq<Step>)
    requires steps != [] && Legal(w, steps)
    ensures Legal(w, steps[..1]) && After(w, steps[..1]) == Next(w, steps[0])
  {
    hide Enabled, Next;
    assert steps[..1][1..] == [];
    assert Legal(Next(w, steps[0]), []);
  }

  lemma OneMoreStep(w: World, steps: seq<Step>, n: nat)
    requires steps != [] && Legal(w, steps) && n <= |steps[1..]| && Legal(Next(w, steps[0]), steps[1..][..n])
    ensures Legal(w, steps[..n + 1]) && After(w, steps[..n + 1]) == After(Next(w, steps[0]), steps[1..][..n])
  {
    hide Enabled, Next;
    assert steps[..n + 1][1..] == steps[1..][..n];
  }

  /**
   What anybody may rely on in a snapshot: the rows are the tasks; what has no row
   is not loading; a connection is open exactly with a session; and what is shown
   of a tree is what the tree holds.
   */
  ghost predicate Reliable(s: State) {
    && Distinct(s.busy) && Ids(s.busy) == s.tasks.Keys
    && (forall owner: Owner :: Loading.Settled(s, owner) ==> !LoadingAt(s, owner))
    && OpenIffSession(s) && TreesOk(s)
  }

  lemma ReachedIsReliable(g: Wiring, steps: seq<Step>)
    requires Legal(Begun(g), steps)
    ensures Reliable(After(Begun(g), steps).s)
  {
    hide Legal, After, Begun, Ids, Distinct, LoadingAt, Loading.Settled, TreesOk, Alive, HeldOnce, Conserved,
         OpenIffSession;
    RowsAreTheTasks(g, steps);
    TreesAreConsistent(g, steps);
    SessionsAreConserved(g, steps);
    forall owner: Owner
      ensures var s := After(Begun(g), steps).s; Loading.Settled(s, owner) ==> !LoadingAt(s, owner)
    {
      NothingIsStuck(g, steps, owner);
    }
  }

  /**
   A session is spawned: it publishes what it shows before anything happens, and
   then once for everything its loop takes. Whatever the callers dispatch and the
   tasks reply, and in whatever order the loop takes it, every snapshot is
   reliable, and the last one is the state of the whole run.
   */
  method Spawn(g: Wiring, turns: seq<R.Turn>, ghost steps: seq<Step>) returns (published: seq<State>)
    requires Legal(Begun(g), steps) && turns == R.TurnsOf(Begun(g), steps)
    ensures |published| == 1 + |turns|
    ensures published[0] == Begun(g).s && published[|turns|] == After(Begun(g), steps).s
    ensures forall k :: 0 <= k < |published| ==> Reliable(published[k])
  {
    hide Reliable, Legal, After, R.Published, R.TurnsOf;
    var runtime := new R.Runtime(g.pageSize, g.library, g.profiles);
    var first := runtime.View();
    var rest := runtime.Run(turns);
    published := [first] + rest;
    R.TheLoopMakesTheRun(Begun(g), steps);
    NothingYet(Begun(g));
    ReachedIsReliable(g, []);
    forall k | 0 <= k < |rest|
      ensures Reliable(rest[k])
    {
      PublishedIsReached(Begun(g), steps, k);
      var n :| Reaches(Begun(g), steps, n, rest[k]);
      ReachedIsReliable(g, steps[..n]);
    }
  }

  lemma NothingYet(w: World)
    ensures Legal(w, []) && After(w, []) == w
  {
  }
}
