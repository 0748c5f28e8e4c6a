/** What subscribers can make of the notifications, and exactly when it is the portfolio. */
module Notifications {
  import opened Containers
  import opened PauseQueue
  import opened WatcherModel
  import opened Protocol
  import opened OvertakenCommits
  import opened Convergence
  import opened UndisturbedRuns

  /** All that a commit has left to do it has done before, or has not to do: nothing that
      it might add is new, nothing whose pause state it might change is known. */
  predicate Quiet(v: View, l: Lister) {
    var content := Through(v, TargetOf(l)).write;
    && (forall c | c in ToAdd(l) :: c.id in v.tombs || c.id in content)
    && (forall p | p in ToPlay(l, v.pauses) :: p.id !in content)
  }

  /** A commit that the next attempt leaves behind has nothing left to notify. */
  predicate LeavesQuietly(s: State) {
    forall k | 0 <= k < |s.listers| && s.listers[k].HoldsGate() && LeftBehind(s, s.listers[k]) ::
      Quiet(s.view, s.listers[k])
  }

  ghost predicate QuietRun(s: State, acts: seq<Action>)
    requires Run(s, acts)
  {
    acts == [] ||
    (QuietRun(s, acts[..|acts| - 1]) &&
     (acts[|acts| - 1].Attempt? ==> LeavesQuietly(Exec(s, acts[..|acts| - 1]))))
  }

  // A commit that goes on writing to a portfolio that has been replaced.
  predicate OldHolder(l: Lister) {
    l.HoldsGate() && !TargetOf(l).Live?
  }

  ghost predicate OldOnesQuiet(s: State) {
    forall k | 0 <= k < |s.listers| && OldHolder(s.listers[k]) :: Quiet(s.view, s.listers[k])
  }

  ghost predicate Telling(s: State) {
    Sound(s) && Sourced(s.view) && OldOnesQuiet(s)
  }

  // ---- The write portfolio ----

  lemma QuietAdd(s: State, k: nat)
    requires Enabled(s, AddNext(k))
    requires InBounds(s.view, s.listers[k]) && !s.listers[k].target.Live? && Quiet(s.view, s.listers[k])
    ensures Do(s, AddNext(k)).view == s.view && Quiet(s.view, Do(s, AddNext(k)).listers[k])
  {
    var Adding(listed, next, target) := s.listers[k];
    assert listed[next..][0] == listed[next];
    assert listed[next + 1..] == listed[next..][1..];
  }

  lemma QuietPlay(s: State, k: nat)
    requires Enabled(s, PlayNext(k))
    requires InBounds(s.view, s.listers[k]) && !s.listers[k].target.Live? && Quiet(s.view, s.listers[k])
    ensures Do(s, PlayNext(k)).view == s.view && Quiet(s.view, Do(s, PlayNext(k)).listers[k])
  {
    var Playing(next, target) := s.listers[k];
    assert s.view.pauses[next..][0] == s.view.pauses[next];
    assert s.view.pauses[next + 1..] == s.view.pauses[next..][1..];
  }

  /** A quiet commit to another portfolio changes nothing at all when it goes on. */
  lemma QuietStep(s: State, a: Action)
    requires Enabled(s, a) && (a.AddNext? || a.PlayNext?)
    requires InBounds(s.view, s.listers[a.k]) && !s.listers[a.k].target.Live? && Quiet(s.view, s.listers[a.k])
    ensures Do(s, a).view == s.view && Quiet(s.view, Do(s, a).listers[a.k])
  {
    hide Do, Quiet, InBounds;
    match a
    case AddNext(k) => QuietAdd(s, k);
    case PlayNext(k) => QuietPlay(s, k);
  }

  /** What quietness depends on. */
  lemma SameQuiet(v: View, l: Lister, w: View, m: Lister)
    requires Quiet(v, l) && w.tombs == v.tombs && w.pauses == v.pauses
    requires Through(w, TargetOf(m)).write == Through(v, TargetOf(l)).write
    requires ToAdd(m) == ToAdd(l) && ToPlay(m, v.pauses) == ToPlay(l, v.pauses)
    ensures Quiet(w, m)
  {
  }

  // What holds on for an overtaken commit while others go on.
  ghost predicate SameForIt(s: State, t: State, k: nat) {
    && k < |s.listers| && k < |t.listers| && s.listers[k].HoldsGate()
    && t.view.tombs == s.view.tombs && t.view.pauses == s.view.pauses
    && SeenBy(t, t.listers[k]).write == SeenBy(s, s.listers[k]).write
    && ToAdd(t.listers[k]) == ToAdd(s.listers[k])
    && ToPlay(t.listers[k], s.view.pauses) == ToPlay(s.listers[k], s.view.pauses)
    && (TargetOf(t.listers[k]).Live? <==> TargetOf(s.listers[k]).Live?)
  }

  lemma SameWhileListing(s: State, a: Action, k: nat)
    requires Sound(s) && Enabled(s, a) && ListsOn(a) && k < |s.listers| && !a.AddNext? && !a.PlayNext?
    requires |Do(s, a).listers| == |s.listers| && OldHolder(Do(s, a).listers[k])
    ensures SameForIt(s, Do(s, a), k)
  {
    OneListerOnly(s, a, k);
    if a.AllAdded? && a.k == k { assert s.view.pauses[0..] == s.view.pauses; }
  }

  /** Births go to the write portfolio, everything else waits at the gate. */
  lemma SameElsewhere(s: State, a: Action, k: nat)
    requires Sound(s) && Enabled(s, a) && !ListsOn(a) && !a.Attempt? && k < |s.listers|
    requires |Do(s, a).listers| == |s.listers| && OldHolder(Do(s, a).listers[k])
    ensures SameForIt(s, Do(s, a), k)
  {
    hide Happened;
    assert InBounds(s.view, s.listers[k]);
  }

  /** Nobody else is at work inside the gate. */
  lemma NobodyElse(s: State, a: Action, k: nat)
    requires Sound(s) && Enabled(s, a) && (a.AddNext? || a.PlayNext?) && k < |s.listers| && k != a.k
    ensures k < |Do(s, a).listers| && !Do(s, a).listers[k].HoldsGate()
  {
    hide InBounds;
    OneListerOnly(s, a, k);
  }

  lemma StayQuiet(s: State, a: Action, k: nat)
    requires Sound(s) && Enabled(s, a) && !a.Attempt? && k < |s.listers| == |Do(s, a).listers|
    requires OldHolder(Do(s, a).listers[k]) && ((a.AddNext? || a.PlayNext?) ==> a.k != k)
    requires OldHolder(s.listers[k]) ==> Quiet(s.view, s.listers[k])
    ensures Quiet(Do(s, a).view, Do(s, a).listers[k])
  {
    hide Enabled, Do, Sound, Quiet;
    if a.AddNext? || a.PlayNext? {
      NobodyElse(s, a, k);
    } else {
      if ListsOn(a) { SameWhileListing(s, a, k); } else { SameElsewhere(s, a, k); }
      SameQuiet(s.view, s.listers[k], Do(s, a).view, Do(s, a).listers[k]);
    }
  }

  lemma OldOnesStep(s: State, a: Action)
    requires Sound(s) && OldOnesQuiet(s) && Enabled(s, a) && !a.Attempt?
    ensures OldOnesQuiet(Do(s, a))
  {
    hide Enabled, Do, Quiet, Sound;
    var t := Do(s, a);
    assert |t.listers| == |s.listers| by { SameListers(s, a); }
    forall k | 0 <= k < |t.listers| && OldHolder(t.listers[k]) ensures Quiet(t.view, t.listers[k]) {
      if (a.AddNext? || a.PlayNext?) && a.k == k {
        OwnTarget(s, a);
        QuietStep(s, a);
      } else {
        StayQuiet(s, a, k);
      }
    }
  }

  lemma SameListers(s: State, a: Action)
    requires Enabled(s, a) && !a.Attempt?
    ensures |Do(s, a).listers| == |s.listers|
  {
  }

  lemma OwnTarget(s: State, a: Action)
    requires Sound(s) && Enabled(s, a) && (a.AddNext? || a.PlayNext?)
    ensures a.k < |s.listers| && s.listers[a.k].HoldsGate() && InBounds(s.view, s.listers[a.k])
    ensures a.k < |Do(s, a).listers| && (TargetOf(Do(s, a).listers[a.k]).Live? <==> TargetOf(s.listers[a.k]).Live?)
    ensures (s.listers[a.k].Adding? || s.listers[a.k].Playing?) && TargetOf(s.listers[a.k]) == s.listers[a.k].target
  {
  }

  lemma AttemptQuiet(s: State, world: Engine)
    requires Sound(s) && LeavesQuietly(s) && Enabled(s, Attempt(world))
    ensures OldOnesQuiet(Do(s, Attempt(world)))
  {
    var t := Do(s, Attempt(world));
    forall k | 0 <= k < |t.listers| && OldHolder(t.listers[k]) ensures Quiet(t.view, t.listers[k]) {
      SameContent(s, world, k);
    }
  }

  /** A portfolio that an attempt replaces keeps what is in it. */
  lemma SameContent(s: State, world: Engine, k: nat)
    requires Sound(s) && Enabled(s, Attempt(world)) && k < |s.listers| && s.listers[k].HoldsGate()
    ensures var t := Do(s, Attempt(world));
            && k < |t.listers| && t.listers[k].HoldsGate()
            && (TargetOf(t.listers[k]).Live? <==> !LeftBehind(s, s.listers[k]))
            && (LeftBehind(s, s.listers[k]) ==> SeenBy(t, t.listers[k]).write == SeenBy(s, s.listers[k]).write)
            && ToAdd(t.listers[k]) == ToAdd(s.listers[k])
            && ToPlay(t.listers[k], s.view.pauses) == ToPlay(s.listers[k], s.view.pauses)
  {
    hide Sound, OvertakenLister, BeginAttempt, Through;
    assert InBounds(s.view, s.listers[k]) by { BoundsOf(s, k); }
    assert Do(s, Attempt(world)).listers[k] == OvertakenLister(s.view, s.listers[k]);
    OvertakenContent(s.view, s.listers[k]);
  }

  lemma OvertakenContent(v: View, l: Lister)
    requires l.HoldsGate() && InBounds(v, l)
    ensures var m, w := OvertakenLister(v, l), BeginAttempt(v);
            var behind := (l.Adding? || l.Playing?) && (!l.target.Live? || |v.write| != 0);
            && m.HoldsGate() && (TargetOf(m).Live? <==> !behind)
            && (behind ==> Through(w, TargetOf(m)).write == Through(v, TargetOf(l)).write)
            && ToAdd(m) == ToAdd(l) && ToPlay(m, v.pauses) == ToPlay(l, v.pauses)
  {
  }

  lemma SourcedStep(s: State, a: Action)
    requires Sourced(s.view) && Enabled(s, a)
    requires (a.AddNext? || a.PlayNext?) ==> s.listers[a.k].target.Live? || Do(s, a).view == s.view
    ensures Sourced(Do(s, a).view)
  {
    match a
    case Attempt(_) => assert |s.view.write| == 0 ==> s.view.write == map[];
    case Finish =>
      match s.handler {
        case Inspected(_, seen) => AddKeepsSourced(s.view, seen);
        case Burying(id) => RemoveKeepsSourced(s.view, id);
        case Pausing(id, paused) => ChangeKeepsSourced(s.view, id, paused);
      }
    case AddNext(k) => AddKeepsSourced(s.view, s.listers[k].listed[s.listers[k].next]);
    case PlayNext(k) =>
      var p := s.view.pauses[s.listers[k].next];
      ChangeKeepsSourced(s.view, p.id, p.paused);
    case _ =>
  }

  lemma TellingStep(s: State, a: Action)
    requires Telling(s) && Enabled(s, a) && (a.Attempt? ==> LeavesQuietly(s))
    ensures Telling(Do(s, a))
  {
    hide Enabled, Do, Sound, Sourced, Quiet;
    SoundStep(s, a);
    if a.Attempt? {
      AttemptQuiet(s, a.world);
    } else {
      OldOnesStep(s, a);
      if a.AddNext? || a.PlayNext? {
        OwnTarget(s, a);
        if !s.listers[a.k].target.Live? { QuietStep(s, a); }
      }
    }
    SourcedStep(s, a);
  }

  /** In every state that can be reached if attempts leave commits behind only quietly, the
      notifications since the attempt began, replayed from nothing, are consistent and give
      exactly the write portfolio. */
  lemma {:induction false} EventsTellThePortfolio(world: Engine, acts: seq<Action>)
    requires Run(Start(world), acts) && QuietRun(Start(world), acts)
    ensures Sourced(Exec(Start(world), acts).view)
    ensures Telling(Exec(Start(world), acts))
    decreases |acts|
  {
    hide Enabled, Do;
    if acts != [] {
      EventsTellThePortfolio(world, acts[..|acts| - 1]);
      TellingStep(Exec(Start(world), acts[..|acts| - 1]), acts[|acts| - 1]);
    }
  }

  // ---- Exactly when an attempt is sure to tell ----

  /** However the world is and however the next attempt interleaves, its notifications tell
      the write portfolio at any time. */
  ghost predicate SureToTell(s: State) {
    forall world, acts |
      Enabled(s, Attempt(world)) && Run(Do(s, Attempt(world)), acts) && OneAttempt(acts) ::
      Sourced(Exec(Do(s, Attempt(world)), acts).view)
  }

  lemma {:induction false} TellingWithinAttempt(t: State, acts: seq<Action>)
    requires Telling(t) && Run(t, acts) && OneAttempt(acts)
    ensures Telling(Exec(t, acts))
    decreases |acts|
  {
    hide Enabled, Do, Telling;
    if acts != [] {
      TellingWithinAttempt(t, acts[..|acts| - 1]);
      TellingStep(Exec(t, acts[..|acts| - 1]), acts[|acts| - 1]);
    }
  }

  lemma QuietIsSure(s: State)
    requires Sound(s) && LeavesQuietly(s)
    ensures SureToTell(s)
  {
    forall world, acts |
      Enabled(s, Attempt(world)) && Run(Do(s, Attempt(world)), acts) && OneAttempt(acts)
      ensures Sourced(Exec(Do(s, Attempt(world)), acts).view)
    {
      hide Run, Exec, LeavesQuietly, Sound;
      var t := Do(s, Attempt(world));
      assert |s.view.write| == 0 ==> s.view.write == map[];
      SoundStep(s, Attempt(world));
      AttemptQuiet(s, world);
      TellingWithinAttempt(t, acts);
    }
  }

  // Notifications of a commit tell of no exits, so that whoever hears any knows of some
  // container afterwards.

  ghost predicate NoExit(log: seq<Note>) {
    forall n | n in log :: n.kind != Exited
  }

  lemma {:induction false} SomethingHeard(log: seq<Note>)
    requires AllFitting(log) && NoExit(log) && log != []
    ensures HeardAll(log) != map[]
  {
    var front, n := log[..|log| - 1], log[|log| - 1];
    assert n in log;
    if front != [] { SomethingHeard(front); }
    if n.kind == Started {
      assert n.container.id in HeardAll(log);
    } else {
      assert n.container.id in HeardAll(front) && n.container.id in HeardAll(log);
    }
  }

  lemma {:induction false} AddingNotes(v: View, alives: seq<Details>)
    requires NoExit(v.log)
    ensures NoExit(AddListed(v, alives).log)
    decreases |alives|
  {
    if alives != [] {
      AddingNotes(v, alives[..|alives| - 1]);
    }
  }

  lemma {:induction false} PlayingNotes(v: View, pauses: seq<PauseState>)
    requires NoExit(v.log)
    ensures NoExit(PlayBack(v, pauses).log) && |v.log| <= |PlayBack(v, pauses).log|
    ensures (exists p :: p in pauses && p.id in v.write) ==> |v.log| < |PlayBack(v, pauses).log|
    decreases |pauses|
  {
    if pauses != [] {
      var front, last := pauses[..|pauses| - 1], pauses[|pauses| - 1];
      PlayingNotes(v, front);
      PlayBackClosedForm(v, front, last.id);
      assert forall p | p in pauses :: p in front || p == last;
    }
  }

  lemma NotQuietNotes(v: View, alives: seq<Details>, pauses: seq<PauseState>)
    requires v.log == []
    requires || (exists c :: c in alives && c.id !in v.tombs && c.id !in v.write)
             || (exists p :: p in pauses && p.id in v.write)
    ensures NoExit(PlayBack(AddListed(v, alives), pauses).log)
    ensures PlayBack(AddListed(v, alives), pauses).log != []
  {
    var w := AddListed(v, alives);
    AddingNotes(v, alives);
    PlayingNotes(w, pauses);
    if c :| c in alives && c.id !in v.tombs && c.id !in v.write {
      FirstListedIsListed(alives, c.id);
      AddListedClosedForm(v, alives, c.id);
      assert w.log != [];
    } else {
      var p :| p in pauses && p.id in v.write;
      AddListedClosedForm(v, alives, p.id);
      assert p in pauses && p.id in w.write;
    }
  }

  lemma BackElsewhere(v: View, t: Target, w: View)
    requires !t.Live?
    ensures Back(v, t, w).log == w.log && Back(v, t, w).write == v.write
    ensures Through(v, t).log == v.log && Through(v, t).tombs == v.tombs && Through(v, t).pauses == v.pauses
  {
  }

  lemma LoudIsUnsure(s: State, k: nat)
    requires Sound(s) && s.handler.Idle? && k < |s.listers| && s.listers[k].HoldsGate()
    requires LeftBehind(s, s.listers[k]) && !Quiet(s.view, s.listers[k])
    ensures !SureToTell(s)
  {
    hide Run, Exec, Sound, Quiet, Through, Back;
    var t := Do(s, Attempt(map[]));
    var l := t.listers[k];
    SoundStep(s, Attempt(map[]));
    SameContent(s, map[], k);
    assert t.view.write == map[] by { assert |s.view.write| == 0 ==> s.view.write == map[]; }
    assert InBounds(t.view, l) by { BoundsOf(t, k); }
    var acts := FinishCommit(t, k);
    var v, w := SeenBy(t, l), RestDone(t, l);
    BackElsewhere(t.view, TargetOf(l), w);
    LoudSees(s, t, k);
    NotQuietNotes(v, ToAdd(l), ToPlay(l, t.view.pauses));
    Told(Exec(t, acts).view);
    assert Run(t, acts) && OneAttempt(acts);
  }

  lemma BoundsOf(t: State, k: nat)
    requires Sound(t) && k < |t.listers|
    ensures InBounds(t.view, t.listers[k])
  {
  }

  lemma LoudSees(s: State, t: State, k: nat)
    requires k < |s.listers| && k < |t.listers| && !Quiet(s.view, s.listers[k])
    requires SeenBy(t, t.listers[k]).write == SeenBy(s, s.listers[k]).write
    requires ToAdd(t.listers[k]) == ToAdd(s.listers[k]) && SeenBy(t, t.listers[k]).tombs == s.view.tombs
    requires ToPlay(t.listers[k], t.view.pauses) == ToPlay(s.listers[k], s.view.pauses)
    ensures var v := SeenBy(t, t.listers[k]);
            || (exists c :: c in ToAdd(t.listers[k]) && c.id !in v.tombs && c.id !in v.write)
            || (exists p :: p in ToPlay(t.listers[k], t.view.pauses) && p.id in v.write)
  {
  }

  lemma Told(v: View)
    requires v.write == map[] && NoExit(v.log) && v.log != []
    ensures !Sourced(v)
  {
    if AllFitting(v.log) { SomethingHeard(v.log); }
  }

  /** The notifications of an attempt are sure to tell its write portfolio if and only if no
      commit that it leaves behind has anything left to notify. */
  lemma SureToTellIffQuiet(s: State)
    requires Sound(s) && s.handler.Idle?
    ensures SureToTell(s) <==> LeavesQuietly(s)
  {
    hide SureToTell, Sound, Quiet;
    if LeavesQuietly(s) {
      QuietIsSure(s);
    } else {
      var k :|
        0 <= k < |s.listers| && s.listers[k].HoldsGate() && LeftBehind(s, s.listers[k]) && !Quiet(s.view, s.listers[k]);
      LoudIsUnsure(s, k);
    }
  }
}
