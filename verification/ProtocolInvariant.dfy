/** What every step of the protocol keeps, ID by ID. */
module ProtocolInvariant {
  import opened Containers
  import opened PauseQueue
  import opened Protocol

  // ---- Pending events ----

  /** The events not handled completely yet. */
  function Todo(s: State): seq<Event> {
    InHand(s.handler) + s.queue
  }

  predicate DieFree(q: seq<Event>, id: Id) {
    Died(id) !in q
  }

  predicate PauseFree(q: seq<Event>, id: Id) {
    PauseSet(id, true) !in q && PauseSet(id, false) !in q
  }

  ghost predicate BirthFree(q: seq<Event>, id: Id) {
    forall e | e in q :: e.Born? ==> e.birth.id != id
  }

  ghost predicate Legal(m: Engine, q: seq<Event>)
    decreases |q|
  {
    q == [] || (Allowed(m, q[0]) && Legal(Happened(m, q[0]), q[1..]))
  }

  function Replayed(m: Engine, q: seq<Event>): Engine
    decreases |q|
  {
    if q == [] then m else Replayed(Happened(m, q[0]), q[1..])
  }

  lemma {:induction false} ReplayMore(m: Engine, q: seq<Event>, e: Event)
    requires Legal(m, q) && Allowed(Replayed(m, q), e)
    ensures Legal(m, q + [e])
    ensures Replayed(m, q + [e]) == Happened(Replayed(m, q), e)
    decreases |q|
  {
    if q != [] {
      ReplayMore(Happened(m, q[0]), q[1..], e);
      assert (q + [e])[1..] == q[1..] + [e];
    }
  }

  lemma {:induction false} StaysDead(m: Engine, q: seq<Event>, id: Id)
    requires id !in m && BirthFree(q, id)
    ensures id !in Replayed(m, q)
    decreases |q|
  {
    if q != [] {
      StaysDead(Happened(m, q[0]), q[1..], id);
    }
  }

  lemma {:induction false} StaysAlive(m: Engine, q: seq<Event>, id: Id)
    requires Legal(m, q) && id in m && DieFree(q, id)
    ensures id in Replayed(m, q) && SameIncarnation(Replayed(m, q)[id], m[id])
    ensures PauseFree(q, id) ==> Replayed(m, q)[id] == m[id]
    decreases |q|
  {
    if q != [] {
      assert q[0] in q;
      StaysAlive(Happened(m, q[0]), q[1..], id);
    }
  }

  /** The last pause event of a container tells its pause state. */
  lemma LastPauseHolds(m: Engine, q: seq<Event>, id: Id, paused: bool)
    requires q != [] && q[0] == PauseSet(id, paused) && Legal(m, q) && DieFree(q[1..], id)
    ensures id in Replayed(m, q)
    ensures PauseFree(q[1..], id) ==> Replayed(m, q)[id].paused == paused
  {
    StaysAlive(Happened(m, q[0]), q[1..], id);
  }

  // ---- The invariant ----

  function Current(s: State): Lister {
    if s.listers == [] then Fired else s.listers[|s.listers| - 1]
  }

  // No death, pause or birth of the ID is still to be handled.

  predicate NoDeath(s: State, id: Id) {
    DieFree(InHand(s.handler), id) && DieFree(s.queue, id)
  }

  predicate NoPause(s: State, id: Id) {
    PauseFree(InHand(s.handler), id) && PauseFree(s.queue, id)
  }

  ghost predicate NoBirth(s: State, id: Id) {
    BirthFree(InHand(s.handler), id) && BirthFree(s.queue, id)
  }

  /** A container description is the engine's, as far as it can be relied on: a pending
      death voids it all, a pending pause event voids its pause state. */
  predicate Fresh(engine: Engine, c: Details, noDeath: bool, noPause: bool) {
    noDeath ==>
      && c.id in engine
      && SameIncarnation(engine[c.id], c)
      && (noPause ==> engine[c.id].paused == c.paused)
  }

  function PlayedSoFar(l: Lister): nat {
    if l.Playing? then l.next else 0
  }

  /** The queue holds a pause state for the ID that is still to be played back. */
  ghost predicate Awaited(s: State, id: Id) {
    exists i :: PlayedSoFar(Current(s)) <= i < |s.view.pauses| && s.view.pauses[i].id == id
  }

  ghost predicate FreshEntry(s: State, id: Id) {
    id in s.view.write ==>
      && s.view.write[id].id == id
      && Fresh(s.engine, s.view.write[id], NoDeath(s, id), NoPause(s, id) && !Awaited(s, id))
  }

  ghost predicate FreshPause(s: State, i: nat)
    requires i < |s.view.pauses|
  {
    var p := s.view.pauses[i];
    DieFree(s.queue, p.id) ==>
      p.id in s.engine && (PauseFree(s.queue, p.id) ==> s.engine[p.id].paused == p.paused)
  }

  ghost predicate FreshSnap(s: State, c: Details) {
    c.id !in s.view.tombs ==>
      Fresh(s.engine, c, DieFree(s.queue, c.id), PauseFree(s.queue, c.id) && !Has(s.view.pauses, c.id))
  }

  /** The listing has found this and not added it to the portfolio yet. */
  ghost predicate IsSnap(l: Lister, c: Details) {
    match l
    case Listing(snaps, _) => c in snaps
    case Gated(listed) => c in listed
    case Adding(listed, next, _) => exists i :: next <= i < |listed| && listed[i] == c
    case _ => false
  }

  /** An alive container that the portfolio lacks will be added yet: by its birth
      event, or else by the listing, from which no tombstone bars it. */
  ghost predicate Complete(s: State, id: Id) {
    id in s.engine && NoBirth(s, id) && id !in s.view.write ==>
      match Current(s)
      case Fired => id !in s.view.tombs
      case Listing(_, must) => id !in s.view.tombs && id in must
      case Gated(listed) => id !in s.view.tombs && exists i :: 0 <= i < |listed| && listed[i].id == id
      case Adding(listed, next, _) => id !in s.view.tombs && exists i :: next <= i < |listed| && listed[i].id == id
      case Failed => true
      case _ => false
  }

  ghost predicate Control(s: State) {
    && (forall k | 0 <= k < |s.listers| - 1 :: s.listers[k].Over())
    && (!s.view.listing ==> NothingLeft(s.view))
    && (Current(s).Listing? || Current(s).HoldsGate() ==> s.view.listing)
    && (Current(s).Committed? || Current(s).Published? ==> !s.view.listing)
    && (Current(s).Adding? ==> Current(s).target.Live? && Current(s).next <= |Current(s).listed|)
    && (Current(s).Playing? ==> Current(s).target.Live? && Current(s).next <= |s.view.pauses|)
    && Distinct(s.view.pauses)
    && (s.listers == [] ==> s.handler.Idle?)
  }

  /** The pending events lead from what has been consumed to the engine of now. */
  ghost predicate Consistent(s: State) {
    Legal(s.consumed, Todo(s)) && Replayed(s.consumed, Todo(s)) == s.engine
  }

  ghost predicate EntriesFresh(s: State) {
    forall id :: FreshEntry(s, id)
  }

  ghost predicate PausesFresh(s: State) {
    forall i | 0 <= i < |s.view.pauses| :: FreshPause(s, i)
  }

  ghost predicate SnapsFresh(s: State) {
    forall c :: IsSnap(Current(s), c) ==> FreshSnap(s, c)
  }

  predicate SeenFresh(s: State) {
    s.handler.Inspected? ==>
      var c := s.handler.seen;
      c.id == s.handler.birth.id && Fresh(s.engine, c, DieFree(s.queue, c.id), PauseFree(s.queue, c.id))
  }

  ghost predicate AllComplete(s: State) {
    forall id :: Complete(s, id)
  }

  ghost predicate Inv(s: State) {
    && Keyed(s.engine)
    && Consistent(s)
    && Control(s)
    && EntriesFresh(s)
    && PausesFresh(s)
    && SnapsFresh(s)
    && SeenFresh(s)
    && AllComplete(s)
  }

  lemma InvStart(world: Engine)
    requires Keyed(world)
    ensures Inv(Start(world))
  {
  }

  // ---- Engine changes ----

  lemma EngineConsistent(s: State, e: Event)
    requires Consistent(s) && Allowed(s.engine, e)
    ensures Consistent(Emit(s, e))
  {
    ReplayMore(s.consumed, Todo(s), e);
    assert Todo(Emit(s, e)) == Todo(s) + [e];
  }

  lemma EngineLeavesEntries(s: State, e: Event)
    requires EntriesFresh(s) && Allowed(s.engine, e)
    ensures EntriesFresh(Emit(s, e))
  {
    forall id ensures FreshEntry(Emit(s, e), id) {
      assert FreshEntry(s, id);
      assert Awaited(Emit(s, e), id) <==> Awaited(s, id);
    }
  }

  lemma EngineLeavesListing(s: State, e: Event)
    requires PausesFresh(s) && SnapsFresh(s) && SeenFresh(s) && Allowed(s.engine, e)
    ensures PausesFresh(Emit(s, e)) && SnapsFresh(Emit(s, e)) && SeenFresh(Emit(s, e))
  {
    forall i | 0 <= i < |s.view.pauses| ensures FreshPause(Emit(s, e), i) {
      assert FreshPause(s, i);
    }
    forall c | IsSnap(Current(Emit(s, e)), c) ensures FreshSnap(Emit(s, e), c) {
      assert IsSnap(Current(s), c) && FreshSnap(s, c);
    }
  }

  lemma EngineLeavesComplete(s: State, e: Event)
    requires AllComplete(s) && Allowed(s.engine, e)
    ensures AllComplete(Emit(s, e))
  {
    forall id ensures Complete(Emit(s, e), id) {
      assert Complete(s, id);
      assert NoBirth(Emit(s, e), id) ==> NoBirth(s, id) && !(e.Born? && e.birth.id == id);
    }
  }

  lemma InvEngine(s: State, e: Event)
    requires Inv(s) && Allowed(s.engine, e)
    ensures Inv(Emit(s, e))
  {
    EngineConsistent(s, e);
    EngineLeavesEntries(s, e);
    EngineLeavesListing(s, e);
    EngineLeavesComplete(s, e);
  }

  // ---- The listing thread ----

  /** Nothing changed for what the portfolio holds and lacks. */
  predicate SameStore(s: State, s': State) {
    && s'.engine == s.engine && s'.consumed == s.consumed && s'.queue == s.queue && s'.handler == s.handler
    && s'.view.write == s.view.write && s'.view.tombs == s.view.tombs && s'.view.pauses == s.view.pauses
  }

  lemma SameStoreInv(s: State, s': State)
    requires Inv(s) && SameStore(s, s')
    requires PlayedSoFar(Current(s')) == PlayedSoFar(Current(s))
    ensures Keyed(s'.engine) && Consistent(s') && EntriesFresh(s') && PausesFresh(s') && SeenFresh(s')
  {
    forall id ensures FreshEntry(s', id) {
      assert FreshEntry(s, id);
    }
    forall i | 0 <= i < |s'.view.pauses| ensures FreshPause(s', i) {
      assert FreshPause(s, i);
    }
  }

  lemma InvListStart(s: State, k: nat)
    requires Inv(s) && Enabled(s, ListStart(k))
    ensures Inv(Do(s, ListStart(k)))
  {
    var s' := Do(s, ListStart(k));
    SameStoreInv(s, s');
    forall x ensures Complete(s', x) {
      assert Complete(s, x);
    }
  }

  lemma InvSnap(s: State, k: nat, id: Id)
    requires Inv(s) && Enabled(s, Snap(k, id))
    ensures Inv(Do(s, Snap(k, id)))
  {
    var s' := Do(s, Snap(k, id));
    SameStoreInv(s, s');
    forall c | IsSnap(Current(s'), c) ensures FreshSnap(s', c) {
      if c in s.listers[k].snaps { assert IsSnap(Current(s), c); }
    }
    forall x ensures Complete(s', x) {
      assert Complete(s, x);
    }
  }

  lemma InvListDone(s: State, k: nat)
    requires Inv(s) && Enabled(s, ListDone(k))
    ensures Inv(Do(s, ListDone(k)))
  {
    var s' := Do(s, ListDone(k));
    SameStoreInv(s, s');
    forall c | IsSnap(Current(s'), c) ensures FreshSnap(s', c) {
      assert IsSnap(Current(s), c);
    }
    forall x ensures Complete(s', x) {
      assert Complete(s, x);
    }
  }

  lemma InvGetHold(s: State, k: nat)
    requires Inv(s) && Enabled(s, GetHold(k))
    ensures Inv(Do(s, GetHold(k)))
  {
    var s' := Do(s, GetHold(k));
    SameStoreInv(s, s');
    forall c | IsSnap(Current(s'), c) ensures FreshSnap(s', c) {
      assert IsSnap(Current(s), c);
    }
    forall x ensures Complete(s', x) {
      assert Complete(s, x);
    }
  }

  lemma AddNextLeavesEntries(s: State, k: nat)
    requires Inv(s) && Enabled(s, AddNext(k))
    ensures EntriesFresh(Do(s, AddNext(k)))
  {
    hide Consistent, PausesFresh, SeenFresh, AllComplete;
    var s' := Do(s, AddNext(k));
    var c := s.listers[k].listed[s.listers[k].next];
    assert IsSnap(Current(s), c) && FreshSnap(s, c);
    assert Has(s.view.pauses, c.id) <==> Awaited(s', c.id);
    forall x ensures FreshEntry(s', x) {
      assert FreshEntry(s, x);
    }
  }

  lemma InvAddNext(s: State, k: nat)
    requires Inv(s) && Enabled(s, AddNext(k))
    ensures Inv(Do(s, AddNext(k)))
  {
    var s' := Do(s, AddNext(k));
    AddNextLeavesEntries(s, k);
    SameGate(s, s');
    forall d | IsSnap(Current(s'), d) ensures FreshSnap(s', d) {
      assert IsSnap(Current(s), d) && FreshSnap(s, d);
    }
    forall x ensures Complete(s', x) {
      assert Complete(s, x);
    }
  }

  lemma InvAllAdded(s: State, k: nat)
    requires Inv(s) && Enabled(s, AllAdded(k))
    ensures Inv(Do(s, AllAdded(k)))
  {
    var s' := Do(s, AllAdded(k));
    SameStoreInv(s, s');
    forall x ensures Complete(s', x) {
      assert Complete(s, x);
    }
  }

  lemma PlayNextLeavesEntries(s: State, k: nat)
    requires Inv(s) && Enabled(s, PlayNext(k))
    ensures EntriesFresh(Do(s, PlayNext(k)))
  {
    hide Consistent, SnapsFresh, SeenFresh, AllComplete;
    var s' := Do(s, PlayNext(k));
    var next, q := s.listers[k].next, s.view.pauses;
    assert FreshPause(s, next);
    forall x ensures FreshEntry(s', x) {
      assert FreshEntry(s, x);
      if i :| next <= i < |q| && q[i].id == x {
        assert i > next ==> Awaited(s', x);
      }
    }
  }

  lemma InvPlayNext(s: State, k: nat)
    requires Inv(s) && Enabled(s, PlayNext(k))
    ensures Inv(Do(s, PlayNext(k)))
  {
    var s' := Do(s, PlayNext(k));
    PlayNextLeavesEntries(s, k);
    SameGate(s, s');
    forall x ensures Complete(s', x) {
      assert Complete(s, x);
    }
  }

  lemma InvRelease(s: State, k: nat)
    requires Inv(s) && Enabled(s, Release(k))
    ensures Inv(Do(s, Release(k)))
  {
    var s' := Do(s, Release(k));
    forall x ensures FreshEntry(s', x) {
      assert FreshEntry(s, x);
    }
    forall x ensures Complete(s', x) {
      assert Complete(s, x);
    }
  }

  /** A listing fails, or a committed one, maybe of an earlier attempt, is published. */
  lemma InvListEnd(s: State, k: nat, a: Action)
    requires Inv(s) && (a == ListFail(k) || a == Action.Publish(k)) && Enabled(s, a)
    ensures Inv(Do(s, a))
  {
    var s' := Do(s, a);
    assert k < |s.listers| - 1 ==> Current(s') == Current(s);
    SameStoreInv(s, s');
    forall d | IsSnap(Current(s'), d) ensures FreshSnap(s', d) {
      assert IsSnap(Current(s), d) && FreshSnap(s, d);
    }
    forall x ensures Complete(s', x) {
      assert Complete(s, x);
    }
  }

  // ---- The event thread: at the gate ----

  /** If an ID is alive although its death comes first in the queue, it is reborn there. */
  lemma DeadUnlessReborn(s: State, id: Id)
    requires Consistent(s) && Todo(s) != [] && Todo(s)[0] == Died(id)
    requires NoBirth(s, id)
    ensures id !in s.engine
  {
    StaysDead(Happened(s.consumed, Died(id)), Todo(s)[1..], id);
  }

  lemma InvPopBorn(s: State)
    requires Inv(s) && Enabled(s, Pop) && s.queue[0].Born?
    ensures Inv(Do(s, Pop))
  {
    var s' := Do(s, Pop);
    assert Todo(s') == Todo(s);
    forall x ensures FreshEntry(s', x) {
      assert FreshEntry(s, x);
    }
    forall i | 0 <= i < |s'.view.pauses| ensures FreshPause(s', i) {
      assert FreshPause(s, i);
    }
    forall d | IsSnap(Current(s'), d) ensures FreshSnap(s', d) {
      assert IsSnap(Current(s), d);
    }
    forall x ensures Complete(s', x) {
      assert Complete(s, x);
    }
  }

  lemma GatedDeathLeavesEntry(s: State, x: Id)
    requires Inv(s) && Enabled(s, Pop) && s.queue[0].Died?
    ensures FreshEntry(Do(s, Pop), x)
  {
    var s' := Do(s, Pop);
    assert !Current(s).HoldsGate();
    assert FreshEntry(s, x);
    RemovedHas(s.view.pauses, s.queue[0].id, x);
    assert Awaited(s, x) <==> Has(s.view.pauses, x);
    assert Awaited(s', x) <==> Has(s'.view.pauses, x);
  }

  lemma GatedDeathLeavesPause(s: State, i: nat)
    requires Inv(s) && Enabled(s, Pop) && s.queue[0].Died?
    requires i < |Do(s, Pop).view.pauses|
    ensures FreshPause(Do(s, Pop), i)
  {
    var q := s.view.pauses;
    var r := Do(s, Pop).view.pauses;
    RemovedMeaning(q, s.queue[0].id);
    RemovedHas(q, s.queue[0].id, r[i].id);
    var j :| 0 <= j < |q| && q[j].id == r[i].id;
    PendingAt(q, j);
    PendingAt(r, i);
    assert FreshPause(s, j);
  }

  lemma GatedDeathLeavesSnap(s: State, c: Details)
    requires Inv(s) && Enabled(s, Pop) && s.queue[0].Died? && IsSnap(Current(s), c)
    ensures FreshSnap(Do(s, Pop), c)
  {
    assert FreshSnap(s, c);
    assert !Current(s).HoldsGate();
    RemovedHas(s.view.pauses, s.queue[0].id, c.id);
  }

  lemma GatedDeathLeavesControl(s: State)
    requires Inv(s) && Enabled(s, Pop) && s.queue[0].Died?
    ensures Consistent(Do(s, Pop)) && Control(Do(s, Pop))
  {
    hide EntriesFresh, PausesFresh, SnapsFresh, SeenFresh, AllComplete;
    assert Todo(Do(s, Pop)) == Todo(s) == s.queue;
    RemovedMeaning(s.view.pauses, s.queue[0].id);
  }

  lemma GatedDeathLeavesComplete(s: State, x: Id)
    requires Inv(s) && Enabled(s, Pop) && s.queue[0].Died?
    ensures Complete(Do(s, Pop), x)
  {
    hide EntriesFresh, PausesFresh, SnapsFresh, SeenFresh, Legal, Replayed;
    assert Complete(s, x);
    if x == s.queue[0].id && NoBirth(s, x) {
      assert Todo(s) == s.queue;
      DeadUnlessReborn(s, x);
    }
  }

  lemma InvPopDied(s: State)
    requires Inv(s) && Enabled(s, Pop) && s.queue[0].Died?
    ensures Inv(Do(s, Pop))
  {
    hide Consistent, Control, Complete, FreshEntry, FreshPause, FreshSnap;
    var s' := Do(s, Pop);
    GatedDeathLeavesControl(s);
    forall x ensures Complete(s', x) {
      GatedDeathLeavesComplete(s, x);
    }
    forall x ensures FreshEntry(s', x) {
      GatedDeathLeavesEntry(s, x);
    }
    forall i | 0 <= i < |s'.view.pauses| ensures FreshPause(s', i) {
      GatedDeathLeavesPause(s, i);
    }
    forall c | IsSnap(Current(s'), c) ensures FreshSnap(s', c) {
      GatedDeathLeavesSnap(s, c);
    }
  }

  lemma InvPopPauseDirect(s: State)
    requires Inv(s) && Enabled(s, Pop) && s.queue[0].PauseSet? && !s.view.listing
    ensures Inv(Do(s, Pop))
  {
    var s' := Do(s, Pop);
    assert Todo(s') == Todo(s);
    forall x ensures FreshEntry(s', x) {
      assert FreshEntry(s, x);
    }
    forall x ensures Complete(s', x) {
      assert Complete(s, x);
    }
  }

  lemma QueuedPauseLeavesEntry(s: State, x: Id)
    requires Inv(s) && Enabled(s, Pop) && s.queue[0].PauseSet? && s.view.listing
    ensures FreshEntry(Do(s, Pop), x)
  {
    var s' := Do(s, Pop);
    assert !Current(s).HoldsGate();
    assert s.queue == [s.queue[0]] + s'.queue;
    assert FreshEntry(s, x);
    AddedHas(s.view.pauses, s.queue[0].id, s.queue[0].paused, x);
    assert Awaited(s, x) <==> Has(s.view.pauses, x);
    assert Awaited(s', x) <==> Has(s'.view.pauses, x);
  }

  lemma QueuedPauseIsFresh(s: State, i: nat)
    requires Inv(s) && Enabled(s, Pop) && s.queue[0].PauseSet? && s.view.listing
    requires i < |Do(s, Pop).view.pauses|
    ensures FreshPause(Do(s, Pop), i)
  {
    var r := Do(s, Pop).view.pauses;
    var PauseSet(id, paused) := s.queue[0];
    if r[i].id == id {
      AddedMeaning(s.view.pauses, id, paused);
      PendingAt(r, i);
      assert Todo(s) == s.queue;
      if DieFree(s.queue[1..], id) { LastPauseHolds(s.consumed, s.queue, id, paused); }
    } else {
      assert r[i] == s.view.pauses[i];
      assert FreshPause(s, i);
    }
  }

  lemma QueuedPauseConsistent(s: State)
    requires Consistent(s) && Enabled(s, Pop) && s.queue[0].PauseSet? && s.view.listing
    ensures Consistent(Do(s, Pop))
  {
    assert Todo(s) == s.queue && Todo(Do(s, Pop)) == s.queue[1..];
  }

  lemma QueuedPauseLeavesSnap(s: State, c: Details)
    requires Inv(s) && Enabled(s, Pop) && s.queue[0].PauseSet? && s.view.listing && IsSnap(Current(s), c)
    ensures FreshSnap(Do(s, Pop), c)
  {
    assert FreshSnap(s, c);
    assert s.queue == [s.queue[0]] + s.queue[1..];
    AddedHas(s.view.pauses, s.queue[0].id, s.queue[0].paused, c.id);
  }

  lemma QueuedPauseLeavesRest(s: State)
    requires Inv(s) && Enabled(s, Pop) && s.queue[0].PauseSet? && s.view.listing
    ensures Control(Do(s, Pop)) && AllComplete(Do(s, Pop))
  {
    hide Consistent, FreshEntry, FreshPause, FreshSnap;
    AddedMeaning(s.view.pauses, s.queue[0].id, s.queue[0].paused);
    forall x ensures Complete(Do(s, Pop), x) {
      assert Complete(s, x);
    }
  }

  lemma InvPopPauseQueued(s: State)
    requires Inv(s) && Enabled(s, Pop) && s.queue[0].PauseSet? && s.view.listing
    ensures Inv(Do(s, Pop))
  {
    hide Consistent, Control, AllComplete, FreshEntry, FreshPause, FreshSnap;
    var s' := Do(s, Pop);
    QueuedPauseConsistent(s);
    QueuedPauseLeavesRest(s);
    forall x ensures FreshEntry(s', x) {
      QueuedPauseLeavesEntry(s, x);
    }
    forall i | 0 <= i < |s'.view.pauses| ensures FreshPause(s', i) {
      QueuedPauseIsFresh(s, i);
    }
    forall c | IsSnap(Current(s'), c) ensures FreshSnap(s', c) {
      QueuedPauseLeavesSnap(s, c);
    }
  }

  // ---- The event thread: at the portfolio ----

  /** Nothing changed for what waits at the gate. */
  lemma SameGate(s: State, s': State)
    requires PausesFresh(s)
    requires s'.engine == s.engine && s'.queue == s.queue && s'.view.pauses == s.view.pauses
    ensures PausesFresh(s')
    ensures SnapsFresh(s) && s'.view.tombs == s.view.tombs && Current(s') == Current(s) ==> SnapsFresh(s')
  {
    forall i | 0 <= i < |s'.view.pauses| ensures FreshPause(s', i) {
      assert FreshPause(s, i);
    }
    forall d | SnapsFresh(s) && s'.view.tombs == s.view.tombs && Current(s') == Current(s) && IsSnap(Current(s'), d)
      ensures FreshSnap(s', d)
    {
      assert FreshSnap(s, d);
    }
  }

  lemma FinishConsistent(s: State)
    requires Consistent(s) && Enabled(s, Finish)
    ensures Consistent(Do(s, Finish))
  {
    assert Todo(s) == [InHand(s.handler)[0]] + s.queue;
    assert Todo(Do(s, Finish)) == s.queue;
  }

  lemma InvInspect(s: State)
    requires Inv(s) && Enabled(s, Inspect)
    ensures Inv(Do(s, Inspect))
  {
    var s' := Do(s, Inspect);
    assert Todo(s) == [Born(s.handler.birth)] + s.queue;
    assert s'.handler.Idle? ==> Todo(s') == s.queue;
    SameGate(s, s');
    forall x ensures FreshEntry(s', x) {
      assert FreshEntry(s, x);
    }
    forall x ensures Complete(s', x) {
      assert Complete(s, x);
    }
  }

  lemma FinishLeavesEntry(s: State, x: Id)
    requires Inv(s) && Enabled(s, Finish)
    ensures FreshEntry(Do(s, Finish), x)
  {
    hide Legal, Replayed, FreshPause, FreshSnap, Complete;
    var s' := Do(s, Finish);
    assert FreshEntry(s, x);
    assert Awaited(s', x) <==> Awaited(s, x);
    if s.handler.Pausing? && x == s.handler.id && DieFree(s.queue, x) {
      assert Todo(s) == [PauseSet(x, s.handler.paused)] + s.queue;
      LastPauseHolds(s.consumed, Todo(s), x, s.handler.paused);
    }
  }

  lemma FinishLeavesComplete(s: State, x: Id)
    requires Inv(s) && Enabled(s, Finish)
    ensures Complete(Do(s, Finish), x)
  {
    assert Complete(s, x);
    assert NoBirth(Do(s, Finish), x) && !(s.handler.Inspected? && s.handler.birth.id == x) ==> NoBirth(s, x);
    if s.handler.Burying? && x == s.handler.id && NoBirth(s, x) {
      assert Todo(s)[0] == Died(x);
      DeadUnlessReborn(s, x);
    }
  }

  lemma InvFinish(s: State)
    requires Inv(s) && Enabled(s, Finish)
    ensures Inv(Do(s, Finish))
  {
    var s' := Do(s, Finish);
    FinishConsistent(s);
    SameGate(s, s');
    forall x ensures FreshEntry(s', x) {
      FinishLeavesEntry(s, x);
    }
    forall x ensures Complete(s', x) {
      FinishLeavesComplete(s, x);
    }
  }

  /** Every step within an attempt keeps the invariant. */
  lemma InvStep(s: State, a: Action)
    requires Inv(s) && Enabled(s, a) && !a.Attempt?
    ensures Inv(Do(s, a))
  {
    hide Inv;
    match a
    case EngineStart(c) => InvEngine(s, Born(c));
    case EngineStop(id) => InvEngine(s, Died(id));
    case EnginePause(id, paused) => InvEngine(s, PauseSet(id, paused));
    case Pop =>
      match s.queue[0] {
        case Born(_) => InvPopBorn(s);
        case Died(_) => InvPopDied(s);
        case PauseSet(_, _) => if s.view.listing { InvPopPauseQueued(s); } else { InvPopPauseDirect(s); }
      }
    case Inspect => InvInspect(s);
    case Finish => InvFinish(s);
    case ListStart(k) => InvListStart(s, k);
    case Snap(k, id) => InvSnap(s, k, id);
    case ListDone(k) => InvListDone(s, k);
    case GetHold(k) => InvGetHold(s, k);
    case AddNext(k) => InvAddNext(s, k);
    case AllAdded(k) => InvAllAdded(s, k);
    case PlayNext(k) => InvPlayNext(s, k);
    case Release(k) => InvRelease(s, k);
    case ListFail(k) => InvListEnd(s, k, a);
    case Publish(k) => InvListEnd(s, k, a);
  }
}
