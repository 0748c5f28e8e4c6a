/** Runs in which one thread gets to work undisturbed. Lemmas with a result build the
    sequence of actions. */
module UndisturbedRuns {
  import opened Containers
  import opened WatcherModel
  import opened Protocol
  import opened OvertakenCommits
  import opened Convergence

  ghost predicate Plain(acts: seq<Action>) {
    forall a | a in acts :: !a.Attempt? && !a.Publish?
  }

  ghost predicate StartsNothing(acts: seq<Action>) {
    forall a | a in acts :: !a.EngineStart?
  }

  lemma NothingYet(s: State) returns (acts: seq<Action>)
    ensures Run(s, acts) && Plain(acts) && StartsNothing(acts) && Exec(s, acts) == s
  {
    acts := [];
  }

  lemma Then(s: State, acts: seq<Action>, a: Action) returns (more: seq<Action>)
    requires Run(s, acts) && Plain(acts) && Enabled(Exec(s, acts), a) && !a.Attempt? && !a.Publish?
    ensures Run(s, more) && Plain(more) && Exec(s, more) == Do(Exec(s, acts), a)
    ensures more == acts + [a] && (StartsNothing(acts) && !a.EngineStart? ==> StartsNothing(more))
  {
    hide Enabled, Do;
    RunMore(s, acts, a);
    more := acts + [a];
  }

  lemma Join(s: State, acts: seq<Action>, t: State, more: seq<Action>) returns (all: seq<Action>)
    requires Run(s, acts) && Exec(s, acts) == t && Run(t, more) && Plain(acts) && Plain(more)
    ensures Run(s, all) && Plain(all) && Exec(s, all) == Exec(t, more)
    ensures all == acts + more && (StartsNothing(acts) && StartsNothing(more) ==> StartsNothing(all))
  {
    hide Enabled, Do;
    RunOn(s, acts, t, more);
    all := acts + more;
  }

  // ---- A commit that nobody disturbs ----

  function TargetOf(l: Lister): Target {
    if l.Adding? || l.Playing? then l.target else Live
  }

  /** What a commit sees as its write portfolio. */
  function SeenBy(s: State, l: Lister): View {
    Through(s.view, TargetOf(l))
  }

  /** All that a commit has left to do, done to the portfolio that it writes to. */
  function RestDone(s: State, l: Lister): View {
    PlayBack(AddListed(SeenBy(s, l), ToAdd(l)), ToPlay(l, s.view.pauses))
  }

  function AddedSome(s: State, k: nat, n: nat): State
    requires k < |s.listers| && s.listers[k].Adding? && s.listers[k].next + n <= |s.listers[k].listed|
  {
    var Adding(listed, next, target) := s.listers[k];
    var w := AddListed(Through(s.view, target), listed[next..next + n]);
    s.(listers := s.listers[k := Adding(listed, next + n, TargetBack(target, w))], view := Back(s.view, target, w))
  }

  function PlayedSome(s: State, k: nat, n: nat): State
    requires k < |s.listers| && s.listers[k].Playing? && s.listers[k].next + n <= |s.view.pauses|
  {
    var Playing(next, target) := s.listers[k];
    var w := PlayBack(Through(s.view, target), s.view.pauses[next..next + n]);
    s.(listers := s.listers[k := Playing(next + n, TargetBack(target, w))], view := Back(s.view, target, w))
  }

  lemma AddsOneMore(s: State, k: nat, n: nat)
    requires k < |s.listers| && s.listers[k].Adding? && s.listers[k].next + n < |s.listers[k].listed|
    requires InBounds(s.view, s.listers[k])
    ensures Enabled(AddedSome(s, k, n), AddNext(k))
    ensures Do(AddedSome(s, k, n), AddNext(k)) == AddedSome(s, k, n + 1)
  {
    hide Through, Back, TargetBack, SameButWriteAndLog, AddListed, AddContainer;
    var Adding(listed, next, target) := s.listers[k];
    var v := Through(s.view, target);
    var w := AddListed(v, listed[next..next + n]);
    var x := AddListed(v, listed[next..next + n + 1]);
    AddsLast(v, listed[next..next + n + 1]);
    assert listed[next..next + n + 1][..n] == listed[next..next + n];
    AddListedClosedForm(v, listed[next..next + n], "");
    ThroughBack(s.view, target, w);
    OneAdded(w, listed[next + n]);
    BackTwice(s.view, target, w, x);
  }

  lemma PlaysOneMore(s: State, k: nat, n: nat)
    requires k < |s.listers| && s.listers[k].Playing? && s.listers[k].next + n < |s.view.pauses|
    requires InBounds(s.view, s.listers[k])
    ensures Enabled(PlayedSome(s, k, n), PlayNext(k))
    ensures Do(PlayedSome(s, k, n), PlayNext(k)) == PlayedSome(s, k, n + 1)
  {
    hide Through, Back, TargetBack, SameButWriteAndLog, ChangePaused;
    var Playing(next, target) := s.listers[k];
    var v := Through(s.view, target);
    var w := PlayBack(v, s.view.pauses[next..next + n]);
    var x := PlayBack(v, s.view.pauses[next..next + n + 1]);
    assert s.view.pauses[next..next + n + 1][..n] == s.view.pauses[next..next + n];
    hide PlayBack;
    PlayBackClosedForm(v, s.view.pauses[next..next + n], "");
    ThroughBack(s.view, target, w);
    OnePlayed(w, s.view.pauses[next + n]);
    BackTwice(s.view, target, w, x);
  }

  lemma {:induction false} AddsSome(s: State, k: nat, n: nat) returns (acts: seq<Action>)
    requires k < |s.listers| && s.listers[k].Adding? && s.listers[k].next + n <= |s.listers[k].listed|
    requires InBounds(s.view, s.listers[k])
    ensures Run(s, acts) && Plain(acts) && StartsNothing(acts) && Exec(s, acts) == AddedSome(s, k, n)
    decreases n
  {
    hide Run, Exec;
    if n == 0 {
      acts := NothingYet(s);
      ThroughBack(s.view, s.listers[k].target, Through(s.view, s.listers[k].target));
      assert s.listers[k := s.listers[k]] == s.listers;
    } else {
      acts := AddsSome(s, k, n - 1);
      AddsOneMore(s, k, n - 1);
      acts := Then(s, acts, AddNext(k));
    }
  }

  lemma {:induction false} PlaysSome(s: State, k: nat, n: nat) returns (acts: seq<Action>)
    requires k < |s.listers| && s.listers[k].Playing? && s.listers[k].next + n <= |s.view.pauses|
    requires InBounds(s.view, s.listers[k])
    ensures Run(s, acts) && Plain(acts) && StartsNothing(acts) && Exec(s, acts) == PlayedSome(s, k, n)
    decreases n
  {
    hide Run, Exec;
    if n == 0 {
      acts := NothingYet(s);
      ThroughBack(s.view, s.listers[k].target, Through(s.view, s.listers[k].target));
      assert s.listers[k := s.listers[k]] == s.listers;
    } else {
      acts := PlaysSome(s, k, n - 1);
      PlaysOneMore(s, k, n - 1);
      acts := Then(s, acts, PlayNext(k));
    }
  }

  /** Everybody but one listing is where they were; it has committed, and made `w` of the
      portfolio that it wrote to. */
  function AfterCommit(s: State, k: nat, t: Target, w: View): State
    requires k < |s.listers|
  {
    s.(listers := s.listers[k := Committed], view := Back(s.view, t, w).(tombs := [], pauses := [], listing := false))
  }

  lemma FinishPlaying(s: State, k: nat) returns (acts: seq<Action>)
    requires k < |s.listers| && s.listers[k].Playing? && InBounds(s.view, s.listers[k])
    ensures Run(s, acts) && Plain(acts) && StartsNothing(acts)
    ensures Exec(s, acts) == AfterCommit(s, k, TargetOf(s.listers[k]), RestDone(s, s.listers[k]))
  {
    hide Run, Exec;
    var Playing(next, target) := s.listers[k];
    acts := PlaysSome(s, k, |s.view.pauses| - next);
    assert s.view.pauses[next..next + (|s.view.pauses| - next)] == s.view.pauses[next..];
    PlayBackClosedForm(Through(s.view, target), s.view.pauses[next..], "");
    ThroughBack(s.view, target, PlayBack(Through(s.view, target), s.view.pauses[next..]));
    acts := Then(s, acts, Release(k));
    assert ToAdd(s.listers[k]) == [];
  }

  lemma FinishAdding(s: State, k: nat) returns (acts: seq<Action>)
    requires k < |s.listers| && s.listers[k].Adding? && InBounds(s.view, s.listers[k])
    ensures Run(s, acts) && Plain(acts) && StartsNothing(acts)
    ensures Exec(s, acts) == AfterCommit(s, k, TargetOf(s.listers[k]), RestDone(s, s.listers[k]))
  {
    hide Run, Exec, AddListed, PlayBack;
    var Adding(listed, next, target) := s.listers[k];
    acts := AddsSome(s, k, |listed| - next);
    assert listed[next..next + (|listed| - next)] == listed[next..];
    var w := AddListed(Through(s.view, target), listed[next..]);
    AddListedClosedForm(Through(s.view, target), listed[next..], "");
    ThroughBack(s.view, target, w);
    acts := Then(s, acts, AllAdded(k));
    var t := Exec(s, acts);
    var more := FinishPlaying(t, k);
    acts := Join(s, acts, t, more);
    assert t.view.pauses[0..] == s.view.pauses;
    assert SeenBy(t, t.listers[k]) == w;
    assert RestDone(t, t.listers[k]) == PlayBack(w, s.view.pauses) == RestDone(s, s.listers[k]) by {
      assert AddListed(w, []) == w by { NothingListed(w); }
    }
  }

  lemma NothingListed(v: View)
    ensures AddListed(v, []) == v
  {
  }

  /** A commit that is left alone does all that it has left to do, whichever portfolio it
      writes to. */
  lemma FinishCommit(s: State, k: nat) returns (acts: seq<Action>)
    requires k < |s.listers| && s.listers[k].HoldsGate() && InBounds(s.view, s.listers[k])
    ensures Run(s, acts) && Plain(acts) && StartsNothing(acts)
    ensures Exec(s, acts) == AfterCommit(s, k, TargetOf(s.listers[k]), RestDone(s, s.listers[k]))
  {
    hide Run, Exec, AddListed, PlayBack;
    match s.listers[k]
    case Gated(listed) =>
      acts := NothingYet(s);
      acts := Then(s, acts, GetHold(k));
      var t := Exec(s, acts);
      var more := FinishAdding(t, k);
      acts := Join(s, acts, t, more);
      assert listed[0..] == listed;
      assert t.listers[k := Committed] == s.listers[k := Committed];
    case Adding(_, _, _) => acts := FinishAdding(s, k);
    case Playing(_, _) => acts := FinishPlaying(s, k);
  }

  /** The small steps of a commit, undisturbed, amount to the whole commit at once. */
  lemma UndisturbedCommit(s: State, k: nat) returns (acts: seq<Action>)
    requires Enabled(s, ListDone(k))
    ensures Run(s, acts) && Plain(acts) && StartsNothing(acts)
    ensures Exec(s, acts) == s.(listers := s.listers[k := Committed], view := CommitList(s.view, s.listers[k].snaps))
  {
    hide Run, Exec, AddListed, PlayBack;
    acts := NothingYet(s);
    acts := Then(s, acts, ListDone(k));
    var t := Exec(s, acts);
    var more := FinishCommit(t, k);
    acts := Join(s, acts, t, more);
    assert t.listers[k := Committed] == s.listers[k := Committed];
  }

  // ---- Other short runs ----

  /** A container is born, inspected and added. */
  lemma IsBorn(s: State, c: Details) returns (acts: seq<Action>)
    requires s.listers != [] && s.handler.Idle? && s.queue == [] && c.id !in s.engine
    ensures Run(s, acts) && Plain(acts)
    ensures Exec(s, acts) == s.(engine := s.engine[c.id := c], consumed := s.consumed[c.id := c],
                                view := AddContainer(s.view, c))
  {
    hide Run, Exec;
    acts := NothingYet(s);
    acts := Then(s, acts, EngineStart(c));
    acts := Then(s, acts, Pop);
    acts := Then(s, acts, Inspect);
    acts := Then(s, acts, Finish);
  }

  /** A listing begins and finds one container. */
  lemma Lists(s: State, k: nat, c: Details) returns (acts: seq<Action>)
    requires k < |s.listers| && s.listers[k].Fired? && GateFree(s) && c.id in s.engine && s.engine[c.id] == c
    ensures Run(s, acts) && Plain(acts)
    ensures Exec(s, acts) == s.(listers := s.listers[k := Listing([c], s.engine.Keys)], view := BeginList(s.view))
  {
    hide Run, Exec;
    acts := NothingYet(s);
    acts := Then(s, acts, ListStart(k));
    acts := Then(s, acts, Snap(k, c.id));
    assert [] + [s.engine[c.id]] == [c];
    assert s.listers[k := Listing([], s.engine.Keys)][k := Listing([c], s.engine.Keys)]
        == s.listers[k := Listing([c], s.engine.Keys)];
  }
}
