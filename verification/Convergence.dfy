/** The main results about runs of the protocol. */
module Convergence {
  import opened Containers
  import opened Protocol
  import opened ProtocolInvariant
  import opened OvertakenCommits

  // ---- Putting runs together ----

  lemma RunMore(s: State, acts: seq<Action>, a: Action)
    requires Run(s, acts) && Enabled(Exec(s, acts), a)
    ensures Run(s, acts + [a]) && Exec(s, acts + [a]) == Do(Exec(s, acts), a)
  {
    hide Enabled, Do;
    assert (acts + [a])[..|acts|] == acts;
  }

  lemma {:induction false} RunOn(s: State, acts: seq<Action>, t: State, more: seq<Action>)
    requires Run(s, acts) && Exec(s, acts) == t && Run(t, more)
    ensures Run(s, acts + more) && Exec(s, acts + more) == Exec(t, more)
    decreases |more|
  {
    hide Enabled, Do;
    if more == [] {
      assert acts + more == acts;
    } else {
      var front, a := more[..|more| - 1], more[|more| - 1];
      RunOn(s, acts, t, front);
      RunMore(s, acts + front, a);
      assert acts + more == acts + front + [a];
    }
  }

  ghost predicate OneAttempt(acts: seq<Action>) {
    forall a | a in acts :: !a.Attempt?
  }

  lemma {:induction false} InvWithinAttempt(s: State, acts: seq<Action>)
    requires Inv(s) && Run(s, acts) && OneAttempt(acts)
    ensures Inv(Exec(s, acts))
    decreases |acts|
  {
    hide Enabled, Do;
    if acts != [] {
      InvWithinAttempt(s, acts[..|acts| - 1]);
      InvStep(Exec(s, acts[..|acts| - 1]), acts[|acts| - 1]);
    }
  }

  lemma {:induction false} KeptWithinAttempt(s: State, acts: seq<Action>)
    requires Kept(s) && Run(s, acts) && OneAttempt(acts)
    ensures Kept(Exec(s, acts))
    decreases |acts|
  {
    hide Enabled, Do, Kept;
    if acts != [] {
      KeptWithinAttempt(s, acts[..|acts| - 1]);
      KeptStep(Exec(s, acts[..|acts| - 1]), acts[|acts| - 1]);
    }
  }

  lemma {:induction false} KeptRun(world: Engine, acts: seq<Action>)
    requires Keyed(world) && Run(Start(world), acts) && CleanRun(Start(world), acts)
    ensures Kept(Exec(Start(world), acts))
    decreases |acts|
  {
    hide Enabled, Do, Kept;
    if acts == [] {
      KeptStart(world);
    } else {
      KeptRun(world, acts[..|acts| - 1]);
      KeptStep(Exec(Start(world), acts[..|acts| - 1]), acts[|acts| - 1]);
    }
  }

  // ---- Convergence ----

  /** Once the listing has committed, an ID without pending events is in the portfolio
      if and only if it is alive, as its current incarnation with its current pause state. */
  lemma SettledIdAgrees(s: State, id: Id)
    requires Kept(s)
    requires s.listers != [] && (Current(s).Committed? || Current(s).Published?)
    requires NoDeath(s, id) && NoPause(s, id) && NoBirth(s, id)
    ensures id in s.view.write <==> id in s.engine
    ensures id in s.engine ==> s.view.write[id] == s.engine[id]
  {
    OrdinarilyKept(s);
    assert FreshEntry(s, id) && Complete(s, id);
  }

  lemma QuiescentAgrees(s: State)
    requires Kept(s) && Quiescent(s)
    ensures s.view.write == s.engine
  {
    forall id
      ensures (id in s.view.write <==> id in s.engine) && (id in s.engine ==> s.view.write[id] == s.engine[id])
    {
      SettledIdAgrees(s, id);
    }
  }

  lemma PublishedStep(s: State, a: Action)
    requires (Current(s).Published? ==> s.view.read.Shared?) && Enabled(s, a)
    ensures Current(Do(s, a)).Published? ==> Do(s, a).view.read.Shared?
  {
    if a.Attempt? { assert Current(Do(s, a)) == Fired; }
  }

  /** Once the current listing has been published, readers see the write portfolio. */
  lemma {:induction false} PublishedIsOnline(world: Engine, acts: seq<Action>)
    requires Run(Start(world), acts)
    ensures Current(Exec(Start(world), acts)).Published? ==> Exec(Start(world), acts).view.read.Shared?
    decreases |acts|
  {
    hide Enabled, Do;
    if acts != [] {
      PublishedIsOnline(world, acts[..|acts| - 1]);
      PublishedStep(Exec(Start(world), acts[..|acts| - 1]), acts[|acts| - 1]);
    }
  }

  /** Convergence over all runs of any number of clean attempts: when the current listing
      has committed and no event is left, the write portfolio is the engine's state,
      exactly; and once it has been published, that is what readers see. */
  lemma Converges(world: Engine, acts: seq<Action>)
    requires Keyed(world) && Run(Start(world), acts) && CleanRun(Start(world), acts)
    requires Quiescent(Exec(Start(world), acts))
    ensures var s := Exec(Start(world), acts);
            && s.view.write == s.engine
            && (Current(s).Published? ==> s.view.read.Shared? && s.view.Visible() == s.engine)
  {
    KeptRun(world, acts);
    QuiescentAgrees(Exec(Start(world), acts));
    PublishedIsOnline(world, acts);
  }

  /** What the current attempt publishes lacks no alive container, except those whose
      birth event is still to be handled, and shows none whose death has been handled. */
  lemma PublishesComplete(s: State, id: Id)
    requires Kept(s) && s.listers != []
    requires Enabled(s, Action.Publish(|s.listers| - 1))
    ensures var shown := Do(s, Action.Publish(|s.listers| - 1)).view.Visible();
            && (id in s.engine && NoBirth(s, id) ==> id in shown)
            && (id in shown && NoDeath(s, id) ==> id in s.engine && SameIncarnation(s.engine[id], shown[id]))
  {
    OrdinarilyKept(s);
    assert FreshEntry(s, id) && Complete(s, id);
  }

  // ---- What a listing must not miss ----

  /** The container is alive in every state of the run. */
  ghost predicate AliveThroughout(s: State, acts: seq<Action>, id: Id)
    requires Run(s, acts)
  {
    id in Exec(s, acts).engine && (acts != [] ==> AliveThroughout(s, acts[..|acts| - 1], id))
  }

  lemma ListerStep(s: State, a: Action, k: nat, id: Id)
    requires Enabled(s, a) && !a.Attempt? && k < |s.listers| && !s.listers[k].Fired?
    ensures |Do(s, a).listers| == |s.listers| && !Do(s, a).listers[k].Fired?
    ensures Do(s, a).listers[k].Listing? ==> s.listers[k].Listing?
    ensures Do(s, a).listers[k].Listing? ==>
              (id in Do(s, a).listers[k].must <==>
               id in s.listers[k].must && (id in s.engine ==> id in Do(s, a).engine))
    ensures id !in s.engine && id in Do(s, a).engine ==> a.EngineStart?
  {
  }

  /** What a listing in progress must come up with are the containers alive ever since it
      began, neither more nor less. */
  lemma {:induction false} MustMeansThroughout(s: State, acts: seq<Action>, k: nat, id: Id)
    requires Run(s, acts) && OneAttempt(acts)
    requires k < |s.listers| && s.listers[k].Listing? && s.listers[k].must == s.engine.Keys
    ensures |Exec(s, acts).listers| == |s.listers| && !Exec(s, acts).listers[k].Fired?
    ensures Exec(s, acts).listers[k].Listing? ==>
              (id in Exec(s, acts).listers[k].must <==> AliveThroughout(s, acts, id))
    decreases |acts|
  {
    hide Enabled, Do;
    if acts != [] {
      var front := acts[..|acts| - 1];
      MustMeansThroughout(s, front, k, id);
      ListerStep(Exec(s, front), acts[|acts| - 1], k, id);
      assert AliveThroughout(s, front, id) ==> id in Exec(s, front).engine;
    }
  }
}
