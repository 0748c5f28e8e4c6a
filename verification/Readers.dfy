/** What readers see while the watcher starts over, and exactly when they are safe. */
module Readers {
  import opened Containers
  import opened WatcherModel
  import opened Protocol
  import opened OvertakenCommits
  import opened Convergence
  import opened UndisturbedRuns

  /** A commit that was overtaken goes on writing to the portfolio that readers look at. */
  predicate WritesToOld(s: State, a: Action) {
    (a.AddNext? || a.PlayNext?) && a.k < |s.listers| && TargetOf(s.listers[a.k]).Old?
  }

  ghost predicate OnlyGrown(v: View, t: Target, w: View) {
    && (NeverBlank(v) ==> NeverBlank(w))
    && (v.read.Still? ==> w.read.Still? && v.read.content.Keys <= w.read.content.Keys)
    && (!t.Old? ==> w.read == v.read)
  }

  lemma AddingGrows(v: View, t: Target, c: Details)
    ensures OnlyGrown(v, t, Back(v, t, AddContainer(Through(v, t), c))) && OnlyGrown(v, t, Back(v, t, Through(v, t)))
  {
  }

  lemma PausingGrows(v: View, t: Target, id: Id, paused: bool)
    ensures OnlyGrown(v, t, Back(v, t, ChangePaused(Through(v, t), id, paused)))
  {
  }

  lemma EventsElsewhere(s: State)
    requires Enabled(s, Finish)
    ensures Do(s, Finish).view.read == s.view.read
  {
  }

  /** While readers look at an older portfolio, it stays as it is until a listing is
      published; attempts, event handling and commits to the write portfolio do not touch
      it. An overtaken commit may still write to it, but removes nothing from it. */
  lemma StillUntilPublished(s: State, a: Action)
    requires NeverBlank(s.view) && Enabled(s, a)
    ensures NeverBlank(Do(s, a).view)
    ensures s.view.read.Still? && !a.Publish? ==>
              Do(s, a).view.read.Still? && s.view.read.content.Keys <= Do(s, a).view.read.content.Keys
    ensures s.view.read.Still? && !a.Publish? && !WritesToOld(s, a) ==> Do(s, a).view.read == s.view.read
    ensures a.Attempt? ==> Do(s, a).view.write == map[] && Do(s, a).view.log == []
                           && Do(s, a).view.Visible() == s.view.Visible()
  {
    hide Happened, Through, Back, AddContainer, ChangePaused;
    match a
    case Attempt(_) =>
      assert |s.view.write| == 0 ==> s.view.write == map[];
      assert |s.view.Visible()| == 0 ==> s.view.Visible() == map[];
    case AddNext(k) =>
      var Adding(listed, next, target) := s.listers[k];
      AddingGrows(s.view, target, listed[next]);
    case PlayNext(k) =>
      var pause := s.view.pauses[s.listers[k].next];
      PausingGrows(s.view, s.listers[k].target, pause.id, pause.paused);
    case Finish => EventsElsewhere(s);
    case _ =>
  }

  lemma {:induction false} MakeBeforeBreak(world: Engine, acts: seq<Action>)
    requires Run(Start(world), acts)
    ensures NeverBlank(Exec(Start(world), acts).view)
    decreases |acts|
  {
    hide Enabled, Do;
    if acts != [] {
      MakeBeforeBreak(world, acts[..|acts| - 1]);
      StillUntilPublished(Exec(Start(world), acts[..|acts| - 1]), acts[|acts| - 1]);
    }
  }

  // ---- Exactly when readers keep what they see ----

  /** However the world is when the next attempt begins, and however it interleaves from
      there: until it publishes its own listing, readers see what they saw before. */
  ghost predicate ReadersKeep(s: State) {
    forall world, acts |
      && Enabled(s, Attempt(world)) && Run(Do(s, Attempt(world)), acts) && OneAttempt(acts)
      && Action.Publish(|s.listers|) !in acts ::
      Exec(Do(s, Attempt(world)), acts).view.Visible() == s.view.Visible()
  }

  ghost predicate AllDelivered(s: State) {
    forall k | 0 <= k < |s.listers| :: s.listers[k].Published? || s.listers[k].Failed?
  }

  // Earlier listings have nothing left to do, and readers look at an older portfolio.
  ghost predicate Settling(t: State, last: nat, read: Reader) {
    && t.view.read == read && read.Still? && |t.listers| == last + 1
    && (forall k | 0 <= k < last :: t.listers[k].Published? || t.listers[k].Failed?)
    && TargetOf(t.listers[last]).Live?
  }

  lemma SettlingStep(t: State, a: Action, last: nat, read: Reader)
    requires Settling(t, last, read) && Enabled(t, a) && !a.Attempt? && a != Action.Publish(last)
    ensures Settling(Do(t, a), last, read)
  {
    hide Happened;
  }

  lemma {:induction false} SettlingRun(t: State, acts: seq<Action>, last: nat, read: Reader)
    requires Settling(t, last, read) && Run(t, acts) && OneAttempt(acts) && Action.Publish(last) !in acts
    ensures Settling(Exec(t, acts), last, read)
    decreases |acts|
  {
    hide Enabled, Do, Settling;
    if acts != [] {
      SettlingRun(t, acts[..|acts| - 1], last, read);
      SettlingStep(Exec(t, acts[..|acts| - 1]), acts[|acts| - 1], last, read);
    }
  }

  lemma AttemptSettles(s: State, world: Engine)
    requires Enabled(s, Attempt(world)) && AllDelivered(s) && s.view.Visible() != map[] && NeverBlank(s.view)
    ensures var t := Do(s, Attempt(world));
            Settling(t, |s.listers|, t.view.read) && t.view.Visible() == s.view.Visible()
  {
    StillUntilPublished(s, Attempt(world));
    var t := Do(s, Attempt(world));
    assert |s.view.Visible()| != 0;
    assert forall k | 0 <= k < |s.listers| :: t.listers[k] == s.listers[k];
  }

  lemma DeliveredIsSafe(s: State)
    requires AllDelivered(s) && NeverBlank(s.view) && s.view.Visible() != map[]
    ensures ReadersKeep(s)
  {
    forall world, acts |
      && Enabled(s, Attempt(world)) && Run(Do(s, Attempt(world)), acts) && OneAttempt(acts)
      && Action.Publish(|s.listers|) !in acts
      ensures Exec(Do(s, Attempt(world)), acts).view.Visible() == s.view.Visible()
    {
      hide Enabled, Do, Run, Exec;
      AttemptSettles(s, world);
      var t := Do(s, Attempt(world));
      SettlingRun(t, acts, |s.listers|, t.view.read);
    }
  }

  // ---- Otherwise a newborn may show too early ----

  lemma {:induction false} LongerThanAll(ids: set<Id>) returns (id: Id)
    ensures forall x | x in ids :: |x| < |id|
    decreases |ids|
  {
    if ids == {} {
      id := "";
    } else {
      var x :| x in ids;
      var y := LongerThanAll(ids - {x});
      id := seq(|x| + |y| + 1, _ => 'x');
      assert forall z | z in ids :: z == x || z in ids - {x};
    }
  }

  lemma CommitKeeps(v: View, alives: seq<Details>, id: Id)
    requires id in v.write
    ensures id in CommitList(v, alives).write
  {
    CommitClosedForm(v, alives, id);
  }

  /** A commit under way ends with everything in the write portfolio that was there. */
  lemma RestKeeps(t: State, k: nat, id: Id) returns (acts: seq<Action>, u: State)
    requires Sound(t) && k < |t.listers| && t.listers[k].HoldsGate() && id in t.view.write
    ensures Run(t, acts) && Plain(acts) && Exec(t, acts) == u
    ensures |u.listers| == |t.listers| && u.listers[k] == Committed && id in u.view.write
  {
    hide Run, Exec;
    var l := t.listers[k];
    assert InBounds(t.view, l);
    acts := FinishCommit(t, k);
    u := Exec(t, acts);
    AddListedClosedForm(SeenBy(t, l), ToAdd(l), id);
    PlayBackClosedForm(AddListed(SeenBy(t, l), ToAdd(l)), ToPlay(l, t.view.pauses), id);
  }

  /** Any listing that has not failed can come to the point where it publishes. */
  lemma ComesToCommit(t: State, k: nat, c: Details) returns (acts: seq<Action>, u: State)
    requires Sound(t) && GateFree(t) && k < |t.listers| && !t.listers[k].Published? && !t.listers[k].Failed?
    requires c.id in t.view.write && t.engine == map[c.id := c]
    requires t.listers[k].Listing? ==> t.listers[k].must == {}
    ensures Run(t, acts) && Plain(acts) && Exec(t, acts) == u
    ensures |u.listers| == |t.listers| && u.listers[k] == Committed && c.id in u.view.write
  {
    hide Run, Exec, CommitList;
    acts := NothingYet(t);
    if !t.listers[k].Committed? {
      if t.listers[k].Fired? {
        acts := Lists(t, k, c);
        assert c.id in Ids([c]) by { assert [c][0].id == c.id; }
      }
      var v := Exec(t, acts);
      var more := UndisturbedCommit(v, k);
      acts := Join(t, acts, v, more);
      CommitKeeps(v.view, v.listers[k].snaps, c.id);
    }
    u := Exec(t, acts);
  }

  lemma PublishesEarly(t: State, k: nat, last: nat, c: Details) returns (acts: seq<Action>)
    requires Sound(t) && k < last < |t.listers| && !t.listers[k].Published? && !t.listers[k].Failed?
    requires c.id in t.view.write && t.engine == map[c.id := c]
    requires t.listers[k].HoldsGate() || GateFree(t)
    requires t.listers[k].Listing? ==> t.listers[k].must == {}
    ensures Run(t, acts) && OneAttempt(acts) && Action.Publish(last) !in acts
    ensures c.id in Exec(t, acts).view.Visible()
  {
    hide Run, Exec, Sound;
    var u;
    if t.listers[k].HoldsGate() {
      acts, u := RestKeeps(t, k, c.id);
    } else {
      acts, u := ComesToCommit(t, k, c);
    }
    RunMore(t, acts, Action.Publish(k));
    acts := acts + [Action.Publish(k)];
  }

  /** Something readers did not see before shows before the attempt's own publication. */
  lemma ShowsEarly(s: State, c: Details, t: State, acts: seq<Action>)
    requires Enabled(s, Attempt(map[])) && t == Do(s, Attempt(map[]))
    requires Run(t, acts) && OneAttempt(acts) && Action.Publish(|s.listers|) !in acts
    requires c.id in Exec(t, acts).view.Visible() && c.id !in s.view.Visible()
    ensures !ReadersKeep(s)
  {
  }

  lemma UndeliveredShowsEarly(s: State, k: nat, c: Details)
    requires Sound(s) && s.handler.Idle? && c.id !in s.view.Visible()
    requires k < |s.listers| && !s.listers[k].Published? && !s.listers[k].Failed?
    requires s.listers[k].HoldsGate() || GateFree(s)
    ensures !ReadersKeep(s)
  {
    hide Run, Exec, Sound;
    var t := Do(s, Attempt(map[]));
    SoundAttempt(s, map[]);
    assert forall i | 0 <= i < |s.listers| :: t.listers[i] == OvertakenLister(s.view, s.listers[i]);
    assert |s.view.write| == 0 ==> s.view.write == map[];
    var acts := IsBorn(t, c);
    var u := Exec(t, acts);
    SoundRun(t, acts);
    assert u.engine == map[c.id := c];
    var more := PublishesEarly(u, k, |s.listers|, c);
    RunOn(t, acts, u, more);
    ShowsEarly(s, c, t, acts + more);
  }

  /** With nothing to see, readers share the new portfolio at once. */
  lemma NothingSeenShowsEarly(s: State, c: Details)
    requires s.handler.Idle? && s.view.Visible() == map[]
    ensures !ReadersKeep(s)
  {
    hide Run, Exec;
    var t := Do(s, Attempt(map[]));
    var acts := IsBorn(t, c);
    assert c.id in Exec(t, acts).view.Visible();
    ShowsEarly(s, c, t, acts);
  }

  /** Readers keep what they see during the next attempt, until it publishes its own
      listing, if and only if they see something, and every earlier listing has been
      published or has failed. */
  lemma ReadersKeepIffDelivered(s: State)
    requires Sound(s) && NeverBlank(s.view) && s.handler.Idle?
    ensures ReadersKeep(s) <==> s.view.Visible() != map[] && AllDelivered(s)
  {
    hide ReadersKeep, Sound;
    var id := LongerThanAll(s.view.Visible().Keys);
    var c := Details(id, "", "", 0, false);
    if s.view.Visible() == map[] {
      NothingSeenShowsEarly(s, c);
    } else if AllDelivered(s) {
      DeliveredIsSafe(s);
    } else if k :| 0 <= k < |s.listers| && s.listers[k].HoldsGate() {
      UndeliveredShowsEarly(s, k, c);
    } else {
      var k :| 0 <= k < |s.listers| && !s.listers[k].Published? && !s.listers[k].Failed?;
      UndeliveredShowsEarly(s, k, c);
    }
  }

  /** What shows too early may be nothing at all: a listing that commits but gets to publish
      only after the next attempt has begun puts that attempt's portfolio online while it is
      still empty, and readers lose everything they saw, whatever the world is like. */
  lemma LatePublicationBlanks(s: State, world: Engine, k: nat)
    requires Enabled(s, Attempt(world)) && NeverBlank(s.view) && s.view.Visible() != map[]
    requires k < |s.listers| && s.listers[k].Committed?
    ensures var t := Do(s, Attempt(world));
            && t.view.Visible() == s.view.Visible()
            && Enabled(t, Action.Publish(k))
            && Do(t, Action.Publish(k)).view.Visible() == map[]
  {
    StillUntilPublished(s, Attempt(world));
    assert Do(s, Attempt(world)).listers[k] == s.listers[k];
  }
}
