/** The watcher's part in a run of the protocol is a sequence of sections, and the state that
    the run leads to is the fold of their step functions; module WatcherRuns proves that any
    sequence of sections on the watcher object comes to this fold. */
module ProtocolSections {
  import opened WatcherModel
  import opened Protocol
  import opened OvertakenCommits

  function StepOf(s: State, a: Action): Step
    requires Enabled(s, a)
  {
    match a
    case Attempt(_) => BeginsAttempt
    case Pop =>
      (match s.queue[0]
       case Born(_) => Nothing
       case Died(id) => GatesDeath(id)
       case PauseSet(id, paused) => GatesPause(id, paused))
    case Finish =>
      (match s.handler
       case Inspected(_, seen) => Adds(seen)
       case Burying(id) => Removes(id)
       case Pausing(id, paused) => Changes(id, paused))
    case ListStart(_) => BeginsListing
    case GetHold(_) => GetsHold
    case AddNext(k) => AddsListed(s.listers[k].listed[s.listers[k].next])
    case PlayNext(k) => PlaysBack(s.view.pauses[s.listers[k].next].id, s.view.pauses[s.listers[k].next].paused)
    case Release(_) => Releases
    case Publish(_) => Publishes
    case _ => Nothing
  }

  function StepsOf(s: State, acts: seq<Action>): seq<Step>
    requires Run(s, acts)
  {
    if acts == [] then []
    else
      StepsOf(s, acts[..|acts| - 1]) + [StepOf(Exec(s, acts[..|acts| - 1]), acts[|acts| - 1])]
  }

  /** The commit under way, if there is one, has got hold of this portfolio. */
  ghost predicate HeldBy(s: State, t: Target) {
    forall k | 0 <= k < |s.listers| && (s.listers[k].Adding? || s.listers[k].Playing?) :: s.listers[k].target == t
  }

  lemma ViewStep(s: State, a: Action, t: Target)
    requires Enabled(s, a) && HeldBy(s, t)
    ensures Do(s, a).view == Stepped(s.view, t, StepOf(s, a)).0
  {
    hide Happened;
  }

  lemma TargetStep(s: State, a: Action, t: Target, k: nat)
    requires Sound(s) && Enabled(s, a) && HeldBy(s, t) && k < |Do(s, a).listers|
    requires Do(s, a).listers[k].Adding? || Do(s, a).listers[k].Playing?
    ensures Do(s, a).listers[k].target == Stepped(s.view, t, StepOf(s, a)).1
  {
    hide Happened, BeginAttempt;
    if ListsOn(a) {
      ListingTarget(s, a, t, k);
    }
  }

  lemma ListingTarget(s: State, a: Action, t: Target, k: nat)
    requires Sound(s) && Enabled(s, a) && ListsOn(a) && HeldBy(s, t) && k < |Do(s, a).listers|
    requires Do(s, a).listers[k].Adding? || Do(s, a).listers[k].Playing?
    ensures Do(s, a).listers[k].target == Stepped(s.view, t, StepOf(s, a)).1
  {
    OneListerOnly(s, a, k);
    assert a.k != k ==> !s.listers[a.k].HoldsGate();
  }

  lemma SectionStep(s: State, a: Action, t: Target)
    requires Sound(s) && Enabled(s, a) && HeldBy(s, t)
    ensures Do(s, a).view == Stepped(s.view, t, StepOf(s, a)).0
    ensures HeldBy(Do(s, a), Stepped(s.view, t, StepOf(s, a)).1)
  {
    hide Do, Enabled, Stepped, StepOf, Sound;
    ViewStep(s, a, t);
    var u := Do(s, a);
    forall k | 0 <= k < |u.listers| && (u.listers[k].Adding? || u.listers[k].Playing?)
      ensures u.listers[k].target == Stepped(s.view, t, StepOf(s, a)).1
    {
      TargetStep(s, a, t, k);
    }
  }

  lemma AfterMore(v: View, t: Target, steps: seq<Step>, step: Step)
    ensures var (w, u) := After(v, t, steps); After(v, t, steps + [step]) == Stepped(w, u, step)
  {
    assert (steps + [step])[..|steps|] == steps;
  }

  /** In every reachable state the watcher's view, and what a commit under way has got hold
      of, are what the sections of the run have made of a new watcher. */
  lemma {:induction false} RunsAreSections(world: Engine, acts: seq<Action>)
    requires Run(Start(world), acts)
    ensures var (v, t) := After(NEW_VIEW, Live, StepsOf(Start(world), acts));
            Exec(Start(world), acts).view == v && HeldBy(Exec(Start(world), acts), t)
    decreases |acts|
  {
    hide Enabled, Do, Stepped, StepOf, Sound, HeldBy;
    if acts == [] {
      assert HeldBy(Start(world), Live) by { NobodyHolds(world); }
    } else {
      var front, a := acts[..|acts| - 1], acts[|acts| - 1];
      RunsAreSections(world, front);
      assert Sound(Start(world)) by { StartIsSound(world); }
      SoundRun(Start(world), front);
      var (v, t) := After(NEW_VIEW, Live, StepsOf(Start(world), front));
      SectionStep(Exec(Start(world), front), a, t);
      AfterMore(NEW_VIEW, Live, StepsOf(Start(world), front), StepOf(Exec(Start(world), front), a));
    }
  }

  lemma NobodyHolds(world: Engine)
    ensures HeldBy(Start(world), Live)
  {
  }
}
