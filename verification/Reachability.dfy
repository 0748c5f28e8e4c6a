/** Runs from the very beginning that lead to each of the states in which the next attempt
    is not safe. */
module Reachability {
  import opened Containers
  import opened PauseQueue
  import opened WatcherModel
  import opened Protocol
  import opened OvertakenCommits
  import opened Convergence
  import opened UndisturbedRuns
  import opened Leftovers
  import Deaths
  import Readers
  import Notifications

  // The only container there is to begin with.
  const C := Details("", "", "", 0, false)

  ghost predicate Reached(acts: seq<Action>, s: State) {
    Run(Start(map[]), acts) && Exec(Start(map[]), acts) == s && s.handler.Idle?
  }

  lemma ReachedIsSound(acts: seq<Action>, s: State)
    requires Reached(acts, s)
    ensures Sound(s) && NeverBlank(s.view)
  {
    SoundRun(Start(map[]), acts);
    Readers.MakeBeforeBreak(map[], acts);
  }

  /** The first attempt has begun. */
  lemma Begun() returns (acts: seq<Action>, t: State)
    ensures Reached(acts, t)
    ensures t == State(map[C.id := C], map[C.id := C], [], Idle, NEW_VIEW, [Fired])
  {
    assert Run(Start(map[]), []);
    RunMore(Start(map[]), [], Attempt(map[C.id := C]));
    acts := [] + [Attempt(map[C.id := C])];
    t := Exec(Start(map[]), acts);
    assert OvertakenAll(NEW_VIEW, []) == [];
  }

  lemma GoOn(acts: seq<Action>, t: State, more: seq<Action>) returns (all: seq<Action>)
    requires Reached(acts, t) && Run(t, more) && Exec(t, more).handler.Idle?
    ensures Reached(all, Exec(t, more))
  {
    hide Enabled, Do;
    RunOn(Start(map[]), acts, t, more);
    all := acts + more;
  }

  lemma ListingFrom(t: State) returns (more: seq<Action>, u: State)
    requires t.listers == [Fired]
    ensures Run(t, more) && Plain(more) && Exec(t, more) == u
    ensures u == t.(listers := [Listing([], t.engine.Keys)], view := BeginList(t.view))
  {
    hide Run, Exec;
    more := NothingYet(t);
    more := Then(t, more, ListStart(0));
    u := Exec(t, more);
    assert u.listers[0] == Listing([], t.engine.Keys);
  }

  /** A container dies while it is being listed, and then the listing fails. */
  lemma TombstoneIsLeft() returns (all: seq<Action>, s: State)
    ensures Reached(all, s) && GateFree(s) && C.id in s.view.tombs
    ensures !SureToConverge(s)
  {
    hide Run, Exec;
    var acts, t := Begun();
    var more, u := ListingFrom(t);
    more := Then(t, more, EngineStop(C.id));
    more := Then(t, more, Pop);
    more := Then(t, more, Finish);
    more := Then(t, more, ListFail(0));
    s := Exec(t, more);
    all := GoOn(acts, t, more);
    TombstoneHides(s, C.id);
  }

  lemma PausedWhileListing(t: State) returns (more: seq<Action>, u: State)
    requires t.engine == map[C.id := C] && t.queue == [] && t.handler.Idle?
    requires t.listers == [Fired] && t.view == NEW_VIEW
    ensures Run(t, more) && Plain(more) && Exec(t, more) == u
    ensures u.handler.Idle? && u.listers == [Listing([], {C.id})]
    ensures u.engine == map[C.id := C.(paused := true)]
    ensures u.view == NEW_VIEW.(listing := true, pauses := [PauseState(C.id, true)])
  {
    hide Run, Exec;
    more, u := ListingFrom(t);
    more := Then(t, more, EnginePause(C.id, true));
    more := Then(t, more, Pop);
    u := Exec(t, more);
    assert t.engine.Keys == {C.id};
    assert u.listers[0] == Listing([], {C.id});
  }

  /** A container is paused while it is being listed, and then the listing fails. */
  lemma PauseStateIsLeft() returns (all: seq<Action>, s: State)
    ensures Reached(all, s) && GateFree(s) && s.view.pauses != []
    ensures !SureToConverge(s)
  {
    hide Run, Exec;
    var acts, t := Begun();
    var more, u := PausedWhileListing(t);
    more := Then(t, more, ListFail(0));
    s := Exec(t, more);
    all := GoOn(acts, t, more);
    StalePauseFalsifies(s);
  }

  /** The event stream breaks while the listing is still under way. */
  lemma ListingIsLeft() returns (all: seq<Action>, s: State)
    ensures Reached(all, s) && GateFree(s) && s.listers != [] && s.listers[0].Listing?
    ensures !SureToConverge(s)
  {
    hide Run, Exec;
    var acts, t := Begun();
    var more, u := ListingFrom(t);
    s := u;
    all := GoOn(acts, t, more);
    ReachedIsSound(all, s);
    LateCommitRaisesTheDead(s, 0);
  }

  /** It breaks when the listing has just entered the gate. */
  lemma CommitIsLeft() returns (all: seq<Action>, s: State)
    ensures Reached(all, s) && s.listers != [] && s.listers[0].HoldsGate()
    ensures !SureToConverge(s)
  {
    hide Run, Exec;
    var acts, t := Begun();
    var more := Lists(t, 0, C);
    assert Ids([C]) == {C.id} by { assert [C][0] == C; }
    more := Then(t, more, ListDone(0));
    s := Exec(t, more);
    all := GoOn(acts, t, more);
    ReachedIsSound(all, s);
    assert C in ToAdd(s.listers[0]);
    OvertakenCommitAdds(s, 0, C);
  }

  lemma AddedButNotOver() returns (acts: seq<Action>, t: State, more: seq<Action>)
    ensures Reached(acts, t) && Run(t, more) && Plain(more)
    ensures var s := Exec(t, more);
            && s.handler.Idle? && s.listers == [Adding([C.(paused := true)], 1, Live)]
            && s.view.write == map[C.id := C.(paused := true)] && s.view.pauses == [PauseState(C.id, true)]
  {
    hide Run, Exec;
    var u;
    acts, t := Begun();
    more, u := PausedWhileListing(t);
    more := Then(t, more, Snap(0, C.id));
    assert Exec(t, more).listers[0].snaps == [C.(paused := true)];
    assert C.id in Ids([C.(paused := true)]) by { assert [C.(paused := true)][0].id == C.id; }
    more := Then(t, more, ListDone(0));
    more := Then(t, more, GetHold(0));
    more := Then(t, more, AddNext(0));
    assert Exec(t, more).listers[0] == Adding([C.(paused := true)], 1, Live);
  }

  /** A little later the commit has got hold of the portfolio, and has added something to
      it: then the next attempt is sure to converge, although tombstones or pause states
      are left and the listing is not over. Its notifications, though, are not sure to tell
      the portfolio. */
  lemma HarmlessCommitIsLeft() returns (all: seq<Action>, s: State)
    ensures Reached(all, s) && s.listers != [] && s.listers[0].HoldsGate() && s.view.pauses != []
    ensures CleanAttempt(s) && SureToConverge(s)
    ensures !Notifications.SureToTell(s)
  {
    hide Run, Exec, SureToConverge, Notifications.SureToTell;
    var acts, t, more := AddedButNotOver();
    s := Exec(t, more);
    all := GoOn(acts, t, more);
    ReachedIsSound(all, s);
    assert LeftBehind(s, s.listers[0]);
    CleanIsSure(s);
    assert PauseState(C.id, true) in ToPlay(s.listers[0], s.view.pauses);
    Notifications.SureToTellIffQuiet(s);
  }

  lemma CommitsC()
    ensures CommitList(BeginList(NEW_VIEW), [C]).Visible() == map[C.id := C]
    ensures NothingLeft(CommitList(BeginList(NEW_VIEW), [C]))
  {
    var v := BeginList(NEW_VIEW);
    assert [C][..0] == [];
    assert AddListed(v, [C]) == AddContainer(v, C);
  }

  /** It breaks when the listing has committed, but has not been published yet. */
  lemma PublicationIsLeft() returns (all: seq<Action>, s: State)
    ensures Reached(all, s) && CleanAttempt(s) && s.listers == [Committed]
    ensures s.view.Visible() == map[C.id := C]
    ensures !Readers.ReadersKeep(s)
    ensures forall world | Keyed(world) ::
              var t := Do(s, Attempt(world));
              Enabled(t, Action.Publish(0)) && Do(t, Action.Publish(0)).view.Visible() == map[]
  {
    hide Run, Exec, Readers.ReadersKeep, CommitList;
    var acts, t := Begun();
    var more := Lists(t, 0, C);
    assert Ids([C]) == {C.id} by { assert [C][0] == C; }
    var u := Exec(t, more);
    var commit := UndisturbedCommit(u, 0);
    more := Join(t, more, u, commit);
    s := Exec(t, more);
    all := GoOn(acts, t, more);
    ReachedIsSound(all, s);
    CommitsC();
    assert s.listers[0].Committed?;
    Readers.ReadersKeepIffDelivered(s);
    forall world | Keyed(world) ensures
      var t := Do(s, Attempt(world));
      Enabled(t, Action.Publish(0)) && Do(t, Action.Publish(0)).view.Visible() == map[]
    {
      Readers.LatePublicationBlanks(s, world, 0);
    }
  }

  /** Whatever leads to a state that is not safe leads on to a wrong portfolio at rest. */
  lemma UnsureGoesWrong(acts: seq<Action>, s: State) returns (all: seq<Action>)
    requires Reached(acts, s) && !SureToConverge(s)
    ensures Run(Start(map[]), all) && acts <= all && Quiescent(Exec(Start(map[]), all))
    ensures Exec(Start(map[]), all).view.write != Exec(Start(map[]), all).engine
  {
    hide Run, Exec, Enabled, Do, Quiescent;
    var world, more :|
      && Enabled(s, Attempt(world)) && Run(Do(s, Attempt(world)), more) && OneAttempt(more)
      && Quiescent(Exec(Do(s, Attempt(world)), more))
      && Exec(Do(s, Attempt(world)), more).view.write != Exec(Do(s, Attempt(world)), more).engine;
    RunMore(Start(map[]), acts, Attempt(world));
    RunOn(Start(map[]), acts + [Attempt(world)], Do(s, Attempt(world)), more);
    all := acts + [Attempt(world)] + more;
  }

  /** Convergence does need clean attempts: without them some runs go wrong. */
  lemma ConvergenceNeedsCleanRuns()
    ensures exists acts ::
              && Run(Start(map[]), acts) && !CleanRun(Start(map[]), acts) && Quiescent(Exec(Start(map[]), acts))
              && Exec(Start(map[]), acts).view.write != Exec(Start(map[]), acts).engine
  {
    hide Run, Exec, SureToConverge, CleanRun, Quiescent;
    var acts, s := TombstoneIsLeft();
    var all := UnsureGoesWrong(acts, s);
    if CleanRun(Start(map[]), all) {
      Converges(map[], all);
    }
  }

  /** For every state in which an attempt may begin, whatever has led to it: exactly when the
      attempt is sure to converge, when the dead are sure to stay dead, when readers keep what
      they see, and when notifications tell the portfolio. */
  lemma ExactlyWhenSafe(world: Engine, acts: seq<Action>)
    requires Run(Start(world), acts) && Exec(Start(world), acts).handler.Idle?
    ensures var s := Exec(Start(world), acts);
            && (SureToConverge(s) <==> CleanAttempt(s))
            && (Deaths.SureOfDeaths(s) <==>
                  forall k | 0 <= k < |s.listers| :: s.listers[k].Over() || s.listers[k].HoldsGate())
            && (Readers.ReadersKeep(s) <==> s.view.Visible() != map[] && Readers.AllDelivered(s))
            && (Notifications.SureToTell(s) <==> Notifications.LeavesQuietly(s))
  {
    hide Run, Exec, Sound, SureToConverge, Deaths.SureOfDeaths, Readers.ReadersKeep, Notifications.SureToTell;
    var s := Exec(Start(world), acts);
    assert Sound(Start(world)) by { StartIsSound(world); }
    SoundRun(Start(world), acts);
    Readers.MakeBeforeBreak(world, acts);
    SureIffClean(s);
    Deaths.DeadStayDeadIffInGate(s);
    Readers.ReadersKeepIffDelivered(s);
    Notifications.SureToTellIffQuiet(s);
  }
}
