/** The dead stay dead, and exactly when an attempt is sure of that. It takes less than for
    convergence: leftover tombstones and pause states raise nobody. */
module Deaths {
  import opened Containers
  import opened Protocol
  import opened ProtocolInvariant
  import opened OvertakenCommits
  import opened Convergence
  import Leftovers

  // ---- What every attempt keeps that has no old listing yet to enter the gate ----

  ghost predicate World(s: State) {
    Keyed(s.engine) && Consistent(s)
  }

  /** Old listings are over or inside the gate; the current one begins after them, and it
      lists with the flag set. */
  ghost predicate Turns(s: State) {
    && (s.listers == [] ==> s.handler.Idle?)
    && (forall k | 0 <= k < |s.listers| - 1 :: s.listers[k].Over() || s.listers[k].HoldsGate())
    && (Overtaking(s) ==> Current(s).Fired? && !s.handler.Burying? && !s.handler.Pausing?)
    && (Current(s).Listing? || Current(s).HoldsGate() ==> s.view.listing)
  }

  predicate SeenRight(s: State) {
    s.handler.Inspected? ==> s.handler.seen.id == s.handler.birth.id
  }

  /** What the current listing has seen of this container is of no use any more: a tombstone
      bars it, unless the container is about to be born again. */
  ghost predicate Barred(s: State, id: Id) {
    forall c :: IsSnap(Current(s), c) && c.id == id ==> id in s.view.tombs || !BirthFree(s.queue, id)
  }

  ghost predicate Orderly(s: State) {
    && Sound(s) && World(s) && Turns(s) && SeenRight(s)
    && (s.handler.Burying? ==> Barred(s, s.handler.id))
  }

  lemma OrderlyAttempt(s: State, world: Engine)
    requires Sound(s) && Enabled(s, Attempt(world))
    requires forall k | 0 <= k < |s.listers| :: s.listers[k].Over() || s.listers[k].HoldsGate()
    ensures Orderly(Do(s, Attempt(world)))
  {
    SoundStep(s, Attempt(world));
    var t := Do(s, Attempt(world));
    assert forall k | 0 <= k < |s.listers| :: t.listers[k] == OvertakenLister(s.view, s.listers[k]);
    assert Current(t) == Fired;
  }

  lemma ConsistentStep(s: State, a: Action)
    requires Consistent(s) && Enabled(s, a) && !a.Attempt?
    ensures Consistent(Do(s, a))
  {
    match a
    case EngineStart(c) => EngineConsistent(s, Born(c));
    case EngineStop(id) => EngineConsistent(s, Died(id));
    case EnginePause(id, paused) => EngineConsistent(s, PauseSet(id, paused));
    case Pop =>
      if s.queue[0].PauseSet? && s.view.listing {
        QueuedPauseConsistent(s);
      } else {
        assert Todo(Do(s, Pop)) == Todo(s);
      }
    case Inspect =>
      assert Todo(s) == [Born(s.handler.birth)] + s.queue;
      assert Do(s, Inspect).handler.Idle? ==> Todo(Do(s, Inspect)) == s.queue;
    case Finish => FinishConsistent(s);
    case _ =>
  }

  lemma KeyedStep(s: State, a: Action)
    requires Keyed(s.engine) && SeenRight(s) && Enabled(s, a) && !a.Attempt?
    ensures Keyed(Do(s, a).engine) && SeenRight(Do(s, a))
  {
  }

  lemma TurnsStep(s: State, a: Action)
    requires Sound(s) && Turns(s) && Enabled(s, a) && !a.Attempt?
    ensures Turns(Do(s, a))
  {
    hide Happened, Turns, Sound;
    if ListsOn(a) {
      ListingTurns(s, a);
    } else {
      OtherTurns(s, a);
    }
  }

  lemma OtherTurns(s: State, a: Action)
    requires Turns(s) && Enabled(s, a) && !a.Attempt? && !ListsOn(a)
    ensures Turns(Do(s, a))
  {
    hide Happened;
    var t := Do(s, a);
    assert |t.listers| == |s.listers|;
    assert forall k | 0 <= k < |t.listers| ::
        (t.listers[k].HoldsGate() <==> s.listers[k].HoldsGate()) && (t.listers[k].Over() <==> s.listers[k].Over())
        && (t.listers[k].Fired? <==> s.listers[k].Fired?) && (t.listers[k].Listing? <==> s.listers[k].Listing?);
    if Overtaking(t) {
      StillOvertaking(t, s);
    }
  }

  lemma ListingTurns(s: State, a: Action)
    requires Sound(s) && Turns(s) && Enabled(s, a) && ListsOn(a)
    ensures Turns(Do(s, a))
  {
    hide Sound;
    var t := Do(s, a);
    forall k | 0 <= k < |t.listers| ensures k == a.k || t.listers[k] == s.listers[k] {
      OneListerOnly(s, a, k);
    }
    if Overtaking(t) {
      var k :| 0 <= k < |t.listers| - 1 && t.listers[k].HoldsGate();
      assert s.listers[k].HoldsGate();
    }
    assert a.Release? && a.k < |s.listers| - 1 ==> Overtaking(s);
  }

  // ---- Between the gate and the portfolio ----

  lemma GateBars(s: State)
    requires World(s) && Turns(s) && Enabled(s, Pop) && s.queue[0].Died?
    ensures Barred(Do(s, Pop), s.queue[0].id)
  {
    hide Consistent;
    var t := Do(s, Pop);
    assert Current(t) == Current(s);
  }

  lemma BuriedUnlessReborn(s: State)
    requires World(s) && s.handler.Burying? && s.handler.id in s.engine
    ensures !BirthFree(s.queue, s.handler.id)
  {
    var id := s.handler.id;
    assert Todo(s) == [Died(id)] + s.queue;
    if BirthFree(s.queue, id) {
      DeadUnlessReborn(s, id);
    }
  }

  lemma BarredEngine(s: State, e: Event, id: Id)
    requires Barred(s, id)
    ensures Barred(Emit(s, e), id)
  {
    hide Happened;
    forall c | IsSnap(Current(Emit(s, e)), c) && c.id == id
      ensures id in s.view.tombs || !BirthFree(s.queue + [e], id)
    {
      assert IsSnap(Current(s), c);
      if !BirthFree(s.queue, id) {
        var b :| b in s.queue && b.Born? && b.birth.id == id;
        assert b in s.queue + [e];
      }
    }
  }

  lemma BarredListing(s: State, a: Action)
    requires World(s) && Turns(s) && s.handler.Burying? && Barred(s, s.handler.id) && Enabled(s, a) && ListsOn(a)
    ensures Barred(Do(s, a), s.handler.id)
  {
    hide Consistent;
    var id := s.handler.id;
    if id in s.engine { BuriedUnlessReborn(s); }
    forall c | IsSnap(Current(Do(s, a)), c) && c.id == id
      ensures id in Do(s, a).view.tombs || !BirthFree(s.queue, id)
    {
      assert a.Snap? || IsSnap(Current(s), c);
    }
  }

  lemma BarredStep(s: State, a: Action)
    requires Orderly(s) && Enabled(s, a) && !a.Attempt? && Do(s, a).handler.Burying?
    ensures Barred(Do(s, a), Do(s, a).handler.id)
  {
    hide Sound, World, Turns, Barred, Happened;
    match a
    case EngineStart(c) => BarredEngine(s, Born(c), s.handler.id);
    case EngineStop(id) => BarredEngine(s, Died(id), s.handler.id);
    case EnginePause(id, paused) => BarredEngine(s, PauseSet(id, paused), s.handler.id);
    case Pop => GateBars(s);
    case Inspect =>
    case Finish =>
    case Publish(k) => BarredPublish(s, k);
    case _ => BarredListing(s, a);
  }

  lemma BarredPublish(s: State, k: nat)
    requires s.handler.Burying? && Barred(s, s.handler.id) && Enabled(s, Action.Publish(k))
    ensures Barred(Do(s, Action.Publish(k)), s.handler.id)
  {
    var t := Do(s, Action.Publish(k));
    forall c | IsSnap(Current(t), c) ensures IsSnap(Current(s), c) {
    }
  }

  lemma OrderlyStep(s: State, a: Action)
    requires Orderly(s) && Enabled(s, a) && !a.Attempt?
    ensures Orderly(Do(s, a))
  {
    hide Sound, Consistent, Turns, Barred, Enabled, Do;
    SoundStep(s, a);
    ConsistentStep(s, a);
    KeyedStep(s, a);
    TurnsStep(s, a);
    if Do(s, a).handler.Burying? { BarredStep(s, a); }
  }

  lemma {:induction false} OrderlyWithinAttempt(s: State, acts: seq<Action>)
    requires Orderly(s) && Run(s, acts) && OneAttempt(acts)
    ensures Orderly(Exec(s, acts))
    decreases |acts|
  {
    hide Enabled, Do, Orderly;
    if acts != [] {
      OrderlyWithinAttempt(s, acts[..|acts| - 1]);
      OrderlyStep(Exec(s, acts[..|acts| - 1]), acts[|acts| - 1]);
    }
  }

  // ---- From the portfolio on ----

  ghost predicate Gone(s: State, id: Id) {
    id !in s.engine && NoDeath(s, id) && NoBirth(s, id)
  }

  /** The container is gone for good, unless the engine starts it again. */
  ghost predicate Buried(s: State, id: Id) {
    && Gone(s, id) && id !in s.view.write && !Overtaking(s)
    && forall c :: IsSnap(Current(s), c) && c.id == id ==> id in s.view.tombs
  }

  lemma {:induction false} NoDeathWithoutLife(m: Engine, q: seq<Event>, id: Id)
    requires Legal(m, q) && id !in m && BirthFree(q, id)
    ensures DieFree(q, id)
    decreases |q|
  {
    if q != [] {
      assert q[0] in q;
      NoDeathWithoutLife(Happened(m, q[0]), q[1..], id);
    }
  }

  lemma FinishBuries(s: State)
    requires Orderly(s) && s.handler.Burying? && BirthFree(s.queue, s.handler.id)
    ensures Buried(Do(s, Finish), s.handler.id)
  {
    var id := s.handler.id;
    assert Todo(s) == [Died(id)] + s.queue;
    DeadUnlessReborn(s, id);
    NoDeathWithoutLife(Happened(s.consumed, Died(id)), s.queue, id);
  }

  lemma GoneStep(s: State, a: Action, id: Id)
    requires Gone(s, id) && Enabled(s, a) && !a.Attempt?
    requires a.EngineStart? ==> a.c.id != id
    ensures Gone(Do(s, a), id)
  {
  }

  lemma NobodyOvertakes(s: State, a: Action)
    requires Turns(s) && !Overtaking(s) && Enabled(s, a) && !a.Attempt?
    ensures !Overtaking(Do(s, a)) && |Do(s, a).listers| == |s.listers|
  {
    hide Happened;
    var t := Do(s, a);
    forall k | 0 <= k < |t.listers| - 1 ensures !t.listers[k].HoldsGate() {
      assert s.listers[k].Over();
    }
  }

  /** The listing adds what it has seen, but not what a tombstone bars. */
  lemma BuriedListing(s: State, a: Action, id: Id)
    requires Sound(s) && World(s) && Turns(s) && Buried(s, id) && Enabled(s, a) && ListsOn(a)
    ensures id !in Do(s, a).view.write
    ensures forall c :: IsSnap(Current(Do(s, a)), c) && c.id == id ==> id in Do(s, a).view.tombs
  {
    hide Consistent, Sound;
    assert a.k < |s.listers| - 1 ==> s.listers[a.k].Over();
    assert a.AddNext? ==> IsSnap(Current(s), s.listers[a.k].listed[s.listers[a.k].next]);
    forall c | IsSnap(Current(Do(s, a)), c) && c.id == id ensures id in Do(s, a).view.tombs {
      assert a.Snap? || IsSnap(Current(s), c);
    }
  }

  lemma BuriedElsewhere(s: State, a: Action, id: Id)
    requires SeenRight(s) && Buried(s, id) && Enabled(s, a) && !a.Attempt? && !ListsOn(a)
    ensures id !in Do(s, a).view.write
    ensures forall c :: IsSnap(Current(Do(s, a)), c) && c.id == id ==> id in Do(s, a).view.tombs
  {
    hide Happened;
    forall c | IsSnap(Current(Do(s, a)), c) ensures IsSnap(Current(s), c) {
    }
  }

  lemma BuriedStep(s: State, a: Action, id: Id)
    requires Orderly(s) && Buried(s, id) && Enabled(s, a) && !a.Attempt?
    requires a.EngineStart? ==> a.c.id != id
    ensures Buried(Do(s, a), id)
  {
    hide Enabled, Do, Gone, World, Turns, Sound, Overtaking;
    GoneStep(s, a, id);
    NobodyOvertakes(s, a);
    if ListsOn(a) {
      BuriedListing(s, a, id);
    } else {
      BuriedElsewhere(s, a, id);
    }
  }

  ghost predicate NotStarted(acts: seq<Action>, id: Id) {
    forall a | a in acts && a.EngineStart? :: a.c.id != id
  }

  /** If the engine does not start an ID again, then once its death has been handled it
      is never in the write portfolio again during that attempt, however the event gate
      and the listing interleaved. */
  lemma {:induction false} DeadStayDead(s: State, acts: seq<Action>)
    requires Orderly(s) && s.handler.Burying? && BirthFree(s.queue, s.handler.id)
    requires Run(Do(s, Finish), acts) && OneAttempt(acts) && NotStarted(acts, s.handler.id)
    ensures s.handler.id !in Exec(Do(s, Finish), acts).view.write
    ensures Orderly(Exec(Do(s, Finish), acts)) && Buried(Exec(Do(s, Finish), acts), s.handler.id)
    decreases |acts|
  {
    hide Enabled, Do, Orderly;
    CanFinish(s);
    var t := Do(s, Finish);
    if acts == [] {
      OrderlyStep(s, Finish);
      FinishBuries(s);
    } else {
      var front, a := acts[..|acts| - 1], acts[|acts| - 1];
      DeadStayDead(s, front);
      OrderlyStep(Exec(t, front), a);
      BuriedStep(Exec(t, front), a, s.handler.id);
    }
  }

  lemma CanFinish(s: State)
    requires s.handler.Burying?
    ensures Enabled(s, Finish)
  {
  }

  // ---- Exactly when ----

  // At `u` a death is about to be handled, after which these actions follow.
  ghost predicate HandlesDeath(u: State, more: seq<Action>) {
    && u.handler.Burying? && BirthFree(u.queue, u.handler.id)
    && Run(Do(u, Finish), more) && OneAttempt(more) && NotStarted(more, u.handler.id)
  }

  /** However the world is and however the next attempt interleaves, who has died in it and
      is not started again is never in its portfolio again. */
  ghost predicate SureOfDeaths(s: State) {
    forall world, acts, more |
      && Enabled(s, Attempt(world)) && Run(Do(s, Attempt(world)), acts) && OneAttempt(acts)
      && HandlesDeath(Exec(Do(s, Attempt(world)), acts), more) ::
      Exec(Do(s, Attempt(world)), acts).handler.id
      !in Exec(Do(Exec(Do(s, Attempt(world)), acts), Finish), more).view.write
  }

  lemma InGateIsSure(s: State)
    requires Sound(s) && forall k | 0 <= k < |s.listers| :: s.listers[k].Over() || s.listers[k].HoldsGate()
    ensures SureOfDeaths(s)
  {
    forall world, acts, more |
      && Enabled(s, Attempt(world)) && Run(Do(s, Attempt(world)), acts) && OneAttempt(acts)
      && HandlesDeath(Exec(Do(s, Attempt(world)), acts), more)
      ensures Exec(Do(s, Attempt(world)), acts).handler.id
              !in Exec(Do(Exec(Do(s, Attempt(world)), acts), Finish), more).view.write
    {
      hide Enabled, Do, Run, Exec, Orderly, Sound;
      OrderlyAttempt(s, world);
      OrderlyWithinAttempt(Do(s, Attempt(world)), acts);
      DeadStayDead(Exec(Do(s, Attempt(world)), acts), more);
    }
  }

  lemma LateIsUnsure(s: State, k: nat)
    requires Sound(s) && s.handler.Idle? && k < |s.listers| && !s.listers[k].Over() && !s.listers[k].HoldsGate()
    ensures !SureOfDeaths(s)
  {
    hide Run, Exec, Sound, Enabled, Do;
    var c := Details("", "", "", 0, false);
    var t, acts, u, more, end := Leftovers.DeadIsRaised(s, k, c);
    assert HandlesDeath(u, more);
  }

  /** The dead are sure to stay dead throughout the next attempt if and only if every earlier
      listing is over or already inside the gate, whatever else may be left of it. */
  lemma DeadStayDeadIffInGate(s: State)
    requires Sound(s) && s.handler.Idle?
    ensures SureOfDeaths(s) <==> forall k | 0 <= k < |s.listers| :: s.listers[k].Over() || s.listers[k].HoldsGate()
  {
    hide SureOfDeaths, Sound;
    if k :| 0 <= k < |s.listers| && !s.listers[k].Over() && !s.listers[k].HoldsGate() {
      LateIsUnsure(s, k);
    } else {
      InGateIsSure(s);
    }
  }
}
