/** Commits that are still under way when the next attempt begins. The code does not wait
    for them: it only lets them finish before anybody else passes the event gate. */
module OvertakenCommits {
  import opened Containers
  import opened WatcherModel
  import opened Protocol
  import opened ProtocolInvariant

  // ---- What holds in every reachable state, whatever attempts may find ----

  /** At most one listing is inside the event gate, and none runs past its ends; a commit
      writes to a still portfolio only if readers look at one. */
  ghost predicate Sound(s: State) {
    && (forall i, k | 0 <= i < k < |s.listers| :: !(s.listers[i].HoldsGate() && s.listers[k].HoldsGate()))
    && (forall k | 0 <= k < |s.listers| :: InBounds(s.view, s.listers[k]))
  }

  predicate InBounds(v: View, l: Lister) {
    && (l.Adding? ==> l.next <= |l.listed|)
    && (l.Playing? ==> l.next <= |v.pauses|)
    && (l.Adding? || l.Playing? ==> l.target.Old? ==> v.read.Still?)
  }

  predicate ListsOn(a: Action) {
    || a.ListStart? || a.Snap? || a.ListDone? || a.ListFail?
    || a.GetHold? || a.AddNext? || a.AllAdded? || a.PlayNext? || a.Release?
  }

  /** A listing's own step changes no other listing. */
  lemma OneListerOnly(s: State, a: Action, i: nat)
    requires Enabled(s, a) && ListsOn(a) && i < |s.listers|
    ensures |Do(s, a).listers| == |s.listers|
    ensures i != a.k ==> Do(s, a).listers[i] == s.listers[i]
    ensures Do(s, a).listers[i].HoldsGate() ==> s.listers[i].HoldsGate() || (a.ListDone? && i == a.k)
    ensures a.ListDone? ==> GateFree(s)
  {
  }

  lemma OwnBounds(s: State, a: Action)
    requires Enabled(s, a) && ListsOn(a) && InBounds(s.view, s.listers[a.k])
    ensures InBounds(Do(s, a).view, Do(s, a).listers[a.k])
    ensures a.Release? || Do(s, a).view.pauses == s.view.pauses
    ensures s.view.read.Still? ==> Do(s, a).view.read.Still?
  {
  }

  lemma SoundListing(s: State, a: Action)
    requires Sound(s) && Enabled(s, a) && ListsOn(a)
    ensures Sound(Do(s, a))
  {
    hide Enabled, Do, GateFree;
    var t := Do(s, a);
    OwnBoundsOf(s, a);
    forall i, k | 0 <= i < k < |t.listers| ensures !(t.listers[i].HoldsGate() && t.listers[k].HoldsGate()) {
      OneListerOnly(s, a, i);
      OneListerOnly(s, a, k);
      assert a.ListDone? ==> !s.listers[i].HoldsGate() && !s.listers[k].HoldsGate() by { GateIsFree(s, a); }
    }
    forall i | 0 <= i < |t.listers| ensures InBounds(t.view, t.listers[i]) {
      OneListerOnly(s, a, i);
      assert InBounds(s.view, s.listers[i]);
      assert a.Release? ==> s.listers[a.k].HoldsGate() by { ReleasesGate(s, a); }
    }
  }

  lemma GateIsFree(s: State, a: Action)
    requires Enabled(s, a)
    ensures a.ListDone? ==> forall k | 0 <= k < |s.listers| :: !s.listers[k].HoldsGate()
  {
  }

  lemma ReleasesGate(s: State, a: Action)
    requires Enabled(s, a)
    ensures a.Release? ==> a.k < |s.listers| && s.listers[a.k].HoldsGate()
  {
  }

  lemma OwnBoundsOf(s: State, a: Action)
    requires Sound(s) && Enabled(s, a) && ListsOn(a)
    ensures a.k < |s.listers| == |Do(s, a).listers| && InBounds(Do(s, a).view, Do(s, a).listers[a.k])
    ensures a.Release? || Do(s, a).view.pauses == s.view.pauses
    ensures s.view.read.Still? ==> Do(s, a).view.read.Still?
  {
    hide GateFree;
    assert a.k < |s.listers|;
    OwnBounds(s, a);
  }

  lemma SoundElsewhere(s: State, a: Action)
    requires Sound(s) && Enabled(s, a) && !ListsOn(a) && !a.Attempt?
    ensures Sound(Do(s, a))
  {
  }

  lemma SoundAttempt(s: State, world: Engine)
    requires Sound(s) && Enabled(s, Attempt(world))
    ensures Sound(Do(s, Attempt(world)))
  {
  }

  lemma SoundStep(s: State, a: Action)
    requires Sound(s) && Enabled(s, a)
    ensures Sound(Do(s, a))
  {
    hide Enabled, Do, Sound;
    if a.Attempt? {
      SoundAttempt(s, a.world);
    } else if ListsOn(a) {
      SoundListing(s, a);
    } else {
      SoundElsewhere(s, a);
    }
  }

  lemma StartIsSound(world: Engine)
    ensures Sound(Start(world))
  {
  }

  lemma {:induction false} SoundRun(s: State, acts: seq<Action>)
    requires Sound(s) && Run(s, acts)
    ensures Sound(Exec(s, acts))
    decreases |acts|
  {
    hide Enabled, Do, Sound;
    if acts != [] {
      SoundRun(s, acts[..|acts| - 1]);
      SoundStep(Exec(s, acts[..|acts| - 1]), acts[|acts| - 1]);
    }
  }

  // ---- An overtaken commit that is harmless might as well be over ----

  /** A commit of an earlier attempt is inside the event gate. */
  ghost predicate Overtaking(s: State) {
    exists k :: 0 <= k < |s.listers| - 1 && s.listers[k].HoldsGate()
  }

  function Ended(ls: seq<Lister>): (r: seq<Lister>)
    ensures |r| == |ls|
    ensures forall i | 0 <= i < |ls| :: r[i] == if i < |ls| - 1 && ls[i].HoldsGate() then Committed else ls[i]
  {
    seq(|ls|, i requires 0 <= i < |ls| => if i < |ls| - 1 && ls[i].HoldsGate() then Committed else ls[i])
  }

  /** The state as it would be if the overtaken commit had released the gate already. */
  ghost function Settled(s: State): State {
    s.(listers := Ended(s.listers),
       view := if Overtaking(s) then s.view.(tombs := [], pauses := [], listing := false) else s.view)
  }

  /** The commit writes to a portfolio that has been replaced, or has nothing left to do. */
  predicate Powerless(s: State, l: Lister) {
    || ((l.Adding? || l.Playing?) && !l.target.Live?)
    || ((forall c | c in ToAdd(l) :: c.id in s.view.tombs) && ToPlay(l, s.view.pauses) == [])
  }

  ghost predicate Tamed(s: State) {
    Overtaking(s) ==>
      && Current(s).Fired? && !s.handler.Burying? && !s.handler.Pausing?
      && forall k | 0 <= k < |s.listers| - 1 && s.listers[k].HoldsGate() :: Powerless(s, s.listers[k])
  }

  /** What all clean runs keep: the invariant, but for an overtaken commit that is powerless. */
  ghost predicate Kept(s: State) {
    Sound(s) && Tamed(s) && Inv(Settled(s))
  }

  lemma KeptStart(world: Engine)
    requires Keyed(world)
    ensures Kept(Start(world))
  {
    InvStart(world);
    assert Settled(Start(world)) == Start(world);
  }

  lemma OrdinarilyKept(s: State)
    requires Kept(s) && !Overtaking(s)
    ensures Inv(s)
  {
    assert Ended(s.listers) == s.listers;
  }

  lemma InvIsKept(s: State)
    requires Sound(s) && Inv(s)
    ensures Kept(s) && !Overtaking(s)
  {
    assert Ended(s.listers) == s.listers;
  }

  lemma AttemptTames(s: State, world: Engine)
    requires Enabled(s, Attempt(world)) && CleanAttempt(s)
    ensures Tamed(Do(s, Attempt(world)))
  {
    var t := Do(s, Attempt(world));
    assert Current(t) == Fired;
    forall k | 0 <= k < |t.listers| - 1 && t.listers[k].HoldsGate() ensures Powerless(t, t.listers[k]) {
      assert s.listers[k].HoldsGate() && t.listers[k] == OvertakenLister(s.view, s.listers[k]);
      assert Harmless(s, s.listers[k]);
    }
  }

  lemma AttemptOvertakes(s: State, world: Engine)
    requires Enabled(s, Attempt(world))
    ensures Overtaking(Do(s, Attempt(world))) <==> !GateFree(s)
    ensures |Do(s, Attempt(world)).listers| == |s.listers| + 1
  {
    hide BeginAttempt, Overtaken;
    var t := Do(s, Attempt(world));
    assert forall k | 0 <= k < |s.listers| :: t.listers[k].HoldsGate() <==> s.listers[k].HoldsGate();
    if k :| 0 <= k < |s.listers| && s.listers[k].HoldsGate() {
      assert t.listers[k].HoldsGate();
    }
  }

  lemma AttemptEnds(s: State, world: Engine)
    requires Enabled(s, Attempt(world)) && CleanAttempt(s)
    ensures forall k | 0 <= k < |s.listers| :: Ended(Do(s, Attempt(world)).listers)[k].Over()
  {
    hide BeginAttempt, Overtaken, Harmless;
    var t := Do(s, Attempt(world));
    assert forall k | 0 <= k < |s.listers| :: t.listers[k] == OvertakenLister(s.view, s.listers[k]);
  }

  /** A clean attempt establishes the invariant, whatever went on before. */
  lemma KeptAttempt(s: State, world: Engine)
    requires Sound(s) && Enabled(s, Attempt(world)) && CleanAttempt(s)
    ensures Kept(Do(s, Attempt(world)))
  {
    var t := Do(s, Attempt(world));
    SoundStep(s, Attempt(world));
    AttemptTames(s, world);
    AttemptOvertakes(s, world);
    AttemptEnds(s, world);
    FreshStartInv(Settled(t)) by {
      assert |s.view.write| == 0 ==> s.view.write == map[];
      assert Current(Settled(t)) == Fired;
    }
  }

  lemma FreshStartInv(s: State)
    requires Keyed(s.engine) && s.consumed == s.engine && s.queue == [] && s.handler.Idle?
    requires s.view.write == map[] && NothingLeft(s.view)
    requires Current(s).Fired? && forall k | 0 <= k < |s.listers| - 1 :: s.listers[k].Over()
    ensures Inv(s)
  {
  }

  // ---- Steps while no overtaken commit is around ----

  lemma NoneOvertakes(s: State, a: Action)
    requires Sound(s) && Inv(s) && Enabled(s, a) && !a.Attempt?
    ensures !Overtaking(Do(s, a))
  {
    hide Inv, Happened;
    OldOnesOver(s);
    var t := Do(s, a);
    forall k | 0 <= k < |t.listers| - 1 ensures !t.listers[k].HoldsGate() {
      assert s.listers[k].Over();
    }
  }

  lemma OldOnesOver(s: State)
    requires Inv(s)
    ensures forall k | 0 <= k < |s.listers| - 1 :: s.listers[k].Over()
  {
  }

  // ---- Steps while one is ----

  /** Readers and the log are all that may differ. */
  predicate SameButReaders(s: State, t: State) {
    t == s.(view := s.view.(read := t.view.read, log := t.view.log))
  }

  lemma InvIgnoresReaders(s: State, t: State)
    requires Inv(s) && SameButReaders(s, t)
    ensures Inv(t)
  {
    SameStoreInv(s, t);
    SameGate(s, t);
    forall x ensures Complete(t, x) {
      assert Complete(s, x);
    }
  }

  lemma StillOvertaking(s: State, t: State)
    requires Overtaking(s) && |t.listers| == |s.listers|
    requires forall k | 0 <= k < |t.listers| :: t.listers[k].HoldsGate() <==> s.listers[k].HoldsGate()
    ensures Overtaking(t)
  {
    var k :| 0 <= k < |s.listers| - 1 && s.listers[k].HoldsGate();
    assert t.listers[k].HoldsGate();
  }

  lemma EngineCommutes(s: State, e: Event)
    requires Tamed(s) && Overtaking(s) && Allowed(s.engine, e)
    ensures Tamed(Emit(s, e)) && Overtaking(Emit(s, e))
    ensures Settled(Emit(s, e)) == Emit(Settled(s), e)
  {
    hide Happened;
    StillOvertaking(s, Emit(s, e));
    assert Settled(Emit(s, e)).listers == Emit(Settled(s), e).listers;
  }

  lemma HandlerCommutes(s: State, a: Action)
    requires Tamed(s) && Overtaking(s) && Enabled(s, a) && (a.Pop? || a.Inspect? || a.Finish?)
    ensures Enabled(Settled(s), a) && Tamed(Do(s, a)) && Overtaking(Do(s, a))
    ensures Settled(Do(s, a)) == Do(Settled(s), a)
  {
    hide Happened;
    StillOvertaking(s, Do(s, a));
  }

  lemma PublishTames(s: State, j: nat)
    requires Tamed(s) && Overtaking(s) && Enabled(s, Action.Publish(j))
    ensures Tamed(Do(s, Action.Publish(j))) && Overtaking(Do(s, Action.Publish(j)))
  {
    var t := Do(s, Action.Publish(j));
    StillOvertaking(s, t);
    forall k | 0 <= k < |t.listers| - 1 && t.listers[k].HoldsGate() ensures Powerless(t, t.listers[k]) {
      assert s.listers[k].HoldsGate() && Powerless(s, s.listers[k]);
    }
  }

  lemma EndedPublishing(v: View, w: View, ls: seq<Lister>, j: nat)
    requires j < |ls| && ls[j].Committed?
    requires |ls| > 0 && !ls[|ls| - 1].HoldsGate()
    ensures Ended(UnseenAll(v, ls[j := Published])) == UnseenAll(w, Ended(ls)[j := Published])
  {
  }

  lemma PublishCommutes(s: State, j: nat)
    requires Tamed(s) && Overtaking(s) && Enabled(s, Action.Publish(j))
    ensures Enabled(Settled(s), Action.Publish(j))
    ensures Tamed(Do(s, Action.Publish(j))) && Overtaking(Do(s, Action.Publish(j)))
    ensures Settled(Do(s, Action.Publish(j))) == Do(Settled(s), Action.Publish(j))
  {
    hide Tamed, Overtaking;
    PublishTames(s, j);
    assert !Current(s).HoldsGate() by { NobodyCurrent(s); }
    EndedPublishing(s.view, Settled(s).view, s.listers, j);
  }

  lemma NobodyCurrent(s: State)
    requires Tamed(s) && Overtaking(s)
    ensures Current(s).Fired? && s.listers != []
  {
  }

  /** The engine and the event thread do not notice the overtaken commit. */
  lemma Commutes(s: State, a: Action)
    requires Tamed(s) && Overtaking(s) && Enabled(s, a) && !a.Attempt? && !ListsOn(a)
    ensures Enabled(Settled(s), a) && Tamed(Do(s, a)) && Overtaking(Do(s, a))
    ensures Settled(Do(s, a)) == Do(Settled(s), a)
  {
    hide Tamed, Overtaking, Emit, Happened, Popped, Looked, Finished;
    match a
    case EngineStart(c) => EngineCommutes(s, Born(c));
    case EngineStop(id) => EngineCommutes(s, Died(id));
    case EnginePause(id, paused) => EngineCommutes(s, PauseSet(id, paused));
    case Pop => HandlerCommutes(s, a);
    case Inspect => HandlerCommutes(s, a);
    case Finish => HandlerCommutes(s, a);
    case Publish(j) => PublishCommutes(s, j);
  }

  /** Only the overtaken commit can take a listing step. */
  lemma OvertakenTurn(s: State, a: Action)
    requires Sound(s) && Tamed(s) && Overtaking(s) && Inv(Settled(s)) && Enabled(s, a) && ListsOn(a)
    ensures a.k < |s.listers| - 1 && s.listers[a.k].HoldsGate() && Powerless(s, s.listers[a.k])
    ensures a.Release? || Do(s, a).listers[a.k].HoldsGate()
    ensures forall i | 0 <= i < |s.listers| && i != a.k ::
              !s.listers[i].HoldsGate() && Do(s, a).listers[i] == s.listers[i]
    ensures |Do(s, a).listers| == |s.listers|
  {
    hide Enabled, Do, Inv, Powerless;
    OthersOver(s);
    var k :| 0 <= k < |s.listers| - 1 && s.listers[k].HoldsGate();
    assert a.k == k by { WhoseTurn(s, a, k); }
    GateKept(s, a);
    forall i | 0 <= i < |s.listers| && i != k ensures Do(s, a).listers[i] == s.listers[i] {
      OneListerOnly(s, a, i);
    }
  }

  lemma OthersOver(s: State)
    requires Sound(s) && Tamed(s) && Overtaking(s) && Inv(Settled(s))
    ensures Current(s).Fired? && s.listers != []
    ensures forall i | 0 <= i < |s.listers| - 1 :: s.listers[i].Over() || s.listers[i].HoldsGate()
  {
    assert forall i | 0 <= i < |s.listers| - 1 :: Ended(s.listers)[i].Over();
  }

  lemma WhoseTurn(s: State, a: Action, k: nat)
    requires Enabled(s, a) && ListsOn(a) && k < |s.listers| - 1 && s.listers[k].HoldsGate()
    requires s.listers[|s.listers| - 1].Fired?
    requires forall i | 0 <= i < |s.listers| - 1 && i != k :: s.listers[i].Over()
    ensures a.k == k
  {
  }

  lemma GateKept(s: State, a: Action)
    requires Enabled(s, a) && ListsOn(a) && a.k < |s.listers| && s.listers[a.k].HoldsGate()
    ensures |Do(s, a).listers| == |s.listers| && (a.Release? || Do(s, a).listers[a.k].HoldsGate())
  {
  }

  lemma ReleaseSettles(s: State, k: nat)
    requires Sound(s) && Tamed(s) && Overtaking(s) && Inv(Settled(s)) && Enabled(s, Release(k))
    ensures Tamed(Do(s, Release(k))) && Settled(Do(s, Release(k))) == Settled(s)
  {
    OvertakenTurn(s, Release(k));
    assert !Overtaking(Do(s, Release(k)));
    assert Ended(Do(s, Release(k)).listers) == Ended(s.listers);
  }

  /** What a powerless commit does shows to readers and in the log at most. */
  lemma PowerlessStep(s: State, a: Action)
    requires Enabled(s, a) && (a.GetHold? || a.AddNext? || a.AllAdded? || a.PlayNext?)
    requires InBounds(s.view, s.listers[a.k]) && Powerless(s, s.listers[a.k])
    ensures SameButReaders(s.(listers := []), Do(s, a).(listers := []))
    ensures Powerless(Do(s, a), Do(s, a).listers[a.k])
  {
    match a
    case AddNext(k) =>
      var Adding(listed, next, target) := s.listers[k];
      assert listed[next..][0] == listed[next];
      assert listed[next + 1..] == listed[next..][1..];
    case PlayNext(k) =>
      var Playing(next, target) := s.listers[k];
      assert s.view.pauses[next..][0] == s.view.pauses[next];
    case AllAdded(k) =>
      assert s.view.pauses[0..] == s.view.pauses;
    case GetHold(k) =>
      assert s.listers[k].listed[0..] == s.listers[k].listed;
  }

  /** And what it does itself does not show once it has released the gate. */
  lemma Stutters(s: State, a: Action)
    requires Sound(s) && Tamed(s) && Overtaking(s) && Inv(Settled(s)) && Enabled(s, a) && ListsOn(a)
    ensures Tamed(Do(s, a)) && SameButReaders(Settled(s), Settled(Do(s, a)))
  {
    hide Enabled, Do, Inv;
    OvertakenTurn(s, a);
    if a.Release? {
      ReleaseSettles(s, a.k);
    } else {
      GateSteps(s, a);
      PowerlessStep(s, a);
      assert Ended(Do(s, a).listers) == Ended(s.listers);
    }
  }

  lemma GateSteps(s: State, a: Action)
    requires Enabled(s, a) && ListsOn(a) && !a.Release? && s.listers[a.k].HoldsGate()
    ensures a.GetHold? || a.AddNext? || a.AllAdded? || a.PlayNext?
  {
  }

  /** Every step keeps the invariant; new attempts must be clean ones. */
  lemma KeptStep(s: State, a: Action)
    requires Kept(s) && Enabled(s, a)
    requires a.Attempt? ==> CleanAttempt(s)
    ensures Kept(Do(s, a))
  {
    hide Enabled, Do, Inv, Sound, Overtaking, Tamed, Settled, SameButReaders;
    SoundStep(s, a);
    if a.Attempt? {
      KeptAttempt(s, a.world);
    } else if !Overtaking(s) {
      OrdinarilyKept(s);
      InvStep(s, a);
      NoneOvertakes(s, a);
      InvIsKept(Do(s, a));
    } else if ListsOn(a) {
      Stutters(s, a);
      InvIgnoresReaders(Settled(s), Settled(Do(s, a)));
    } else {
      Commutes(s, a);
      InvStep(Settled(s), a);
    }
  }
}
