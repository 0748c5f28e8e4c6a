/** What the listing of a Docker engine returns is what the protocol expects of a listing. */
module DockerListing {
  import opened Containers
  import opened Protocol
  import opened Convergence
  import opened OvertakenCommits
  import opened WatcherModel
  import Moby

  /** The Docker engine's containers that have a process are the protocol's alive ones, under
      their names without the slash. */
  ghost predicate Shows(d: Moby.Docker, m: Engine) {
    && Moby.Regular(d)
    && (forall id | id in d && d[id].hasState && d[id].pid != 0 :: id in m)
    && (forall id | id in m ::
          && id in d && d[id].hasState && d[id].pid != 0
          && d[id].slashedName == [d[id].slashedName[0]] + m[id].name
          && m[id] == Details(id, m[id].name, d[id].project, d[id].pid, d[id].paused))
  }

  lemma ShownAlive(d: Moby.Docker, m: Engine, id: Id)
    requires Shows(d, m)
    ensures Moby.HasProcess(d, id) <==> id in m
    ensures id in m ==> m[id] == Moby.Describe(d[id])
  {
    if id in m { assert ([d[id].slashedName[0]] + m[id].name)[1..] == m[id].name; }
  }

  /** The engine as it was after the first actions of a run. */
  ghost function EngineAfter(s: State, acts: seq<Action>, t: nat): Engine
    requires Run(s, acts) && t <= |acts|
  {
    if t == |acts| then Exec(s, acts).engine else EngineAfter(s, acts[..|acts| - 1], t)
  }

  // ---- Looking at containers while others act ----

  predicate LooksOn(a: Action, k: nat) {
    a.Snap? && a.k == k
  }

  predicate Foreign(a: Action, k: nat) {
    !LooksOn(a, k) && a != ListDone(k) && a != ListFail(k)
  }

  /** None of these actions is the listing's own. */
  ghost predicate Others(acts: seq<Action>, k: nat) {
    forall a | a in acts :: Foreign(a, k)
  }

  /** The run without what one listing does while it looks around. */
  function Elsewhere(acts: seq<Action>, k: nat): seq<Action> {
    if acts == [] then []
    else Elsewhere(acts[..|acts| - 1], k) + if LooksOn(acts[|acts| - 1], k) then [] else [acts[|acts| - 1]]
  }

  function WithSnaps(s: State, k: nat, snaps: seq<Details>): State
    requires k < |s.listers| && s.listers[k].Listing?
  {
    s.(listers := s.listers[k := s.listers[k].(snaps := snaps)])
  }

  lemma StillListing(s: State, a: Action, k: nat)
    requires Enabled(s, a) && !a.Attempt? && a != ListDone(k) && a != ListFail(k)
    requires k < |s.listers| && s.listers[k].Listing?
    ensures k < |Do(s, a).listers| && Do(s, a).listers[k].Listing?
    ensures !LooksOn(a, k) ==> Do(s, a).listers[k].snaps == s.listers[k].snaps
  {
  }

  lemma SameGateFree(s: State, k: nat, snaps: seq<Details>)
    requires k < |s.listers| && s.listers[k].Listing?
    ensures GateFree(WithSnaps(s, k, snaps)) <==> GateFree(s)
  {
    var t := WithSnaps(s, k, snaps);
    assert forall i | 0 <= i < |s.listers| :: t.listers[i].HoldsGate() <==> s.listers[i].HoldsGate();
  }

  lemma EngineDoesNotCare(s: State, e: Event, k: nat, snaps: seq<Details>)
    requires k < |s.listers| && s.listers[k].Listing?
    ensures k < |Emit(s, e).listers| && Emit(s, e).listers[k].Listing?
    ensures Emit(WithSnaps(s, k, snaps), e) == WithSnaps(Emit(s, e), k, snaps)
  {
    hide Happened;
    assert Emit(WithSnaps(s, k, snaps), e).listers == WithSnaps(Emit(s, e), k, snaps).listers;
  }

  lemma HandlerDoesNotCare(s: State, a: Action, k: nat, snaps: seq<Details>)
    requires Enabled(s, a) && (a.Pop? || a.Inspect? || a.Finish?) && k < |s.listers| && s.listers[k].Listing?
    ensures Do(s, a).listers == s.listers && Enabled(WithSnaps(s, k, snaps), a)
    ensures Do(WithSnaps(s, k, snaps), a) == WithSnaps(Do(s, a), k, snaps)
  {
    hide Happened, AddContainer, RemoveContainer, ChangePaused, GateExited, GatePaused;
    SameGateFree(s, k, snaps);
  }

  lemma ListingDoesNotCare(s: State, a: Action, k: nat, snaps: seq<Details>)
    requires Enabled(s, a) && ListsOn(a) && Foreign(a, k) && k < |s.listers| && s.listers[k].Listing?
    ensures |Do(s, a).listers| == |s.listers| && Do(s, a).listers[k] == s.listers[k]
    ensures Enabled(WithSnaps(s, k, snaps), a)
    ensures Do(WithSnaps(s, k, snaps), a) == WithSnaps(Do(s, a), k, snaps)
  {
    hide Through, Back, TargetBack, AddContainer, ChangePaused;
    SameGateFree(s, k, snaps);
    assert a.k != k;
    var l := s.listers[k].(snaps := snaps);
    var m := Do(s, a).listers[a.k];
    assert s.listers[k := l][a.k := m] == s.listers[a.k := m][k := l];
  }

  lemma PublicationDoesNotCare(s: State, j: nat, k: nat, snaps: seq<Details>)
    requires Enabled(s, Action.Publish(j)) && k < |s.listers| && s.listers[k].Listing?
    ensures k < |Do(s, Action.Publish(j)).listers| && Do(s, Action.Publish(j)).listers[k].Listing?
    ensures Enabled(WithSnaps(s, k, snaps), Action.Publish(j))
    ensures Do(WithSnaps(s, k, snaps), Action.Publish(j)) == WithSnaps(Do(s, Action.Publish(j)), k, snaps)
  {
    var t := Do(s, Action.Publish(j));
    assert Do(WithSnaps(s, k, snaps), Action.Publish(j)).listers == WithSnaps(t, k, snaps).listers;
  }

  /** Nobody else cares for what a listing has seen so far. */
  lemma NobodyCares(s: State, a: Action, k: nat, snaps: seq<Details>)
    requires Enabled(s, a) && !a.Attempt? && Foreign(a, k)
    requires k < |s.listers| && s.listers[k].Listing?
    ensures k < |Do(s, a).listers| && Do(s, a).listers[k].Listing?
    ensures Enabled(WithSnaps(s, k, snaps), a)
    ensures Do(WithSnaps(s, k, snaps), a) == WithSnaps(Do(s, a), k, snaps)
  {
    hide Emit, Popped, Looked, Finished, UnseenAll, Happened;
    match a
    case EngineStart(c) => EngineDoesNotCare(s, Born(c), k, snaps);
    case EngineStop(id) => EngineDoesNotCare(s, Died(id), k, snaps);
    case EnginePause(id, paused) => EngineDoesNotCare(s, PauseSet(id, paused), k, snaps);
    case Pop => HandlerDoesNotCare(s, a, k, snaps);
    case Inspect => HandlerDoesNotCare(s, a, k, snaps);
    case Finish => HandlerDoesNotCare(s, a, k, snaps);
    case Publish(j) => PublicationDoesNotCare(s, j, k, snaps);
    case _ => ListingDoesNotCare(s, a, k, snaps);
  }

  // Each container is seen as it was at its own instant, in the order of instants.
  ghost predicate SeenAt(s: State, acts: seq<Action>, snaps: seq<Details>, at: seq<nat>)
    requires Run(s, acts)
  {
    && |at| == |snaps|
    && (forall n, m | 0 <= n < m < |at| :: at[n] <= at[m])
    && (forall n | 0 <= n < |at| :: at[n] <= |acts|)
    && (forall n | 0 <= n < |at| ::
          snaps[n].id in EngineAfter(s, acts, at[n]) && EngineAfter(s, acts, at[n])[snaps[n].id] == snaps[n])
  }

  lemma FrontOthers(acts: seq<Action>, k: nat)
    requires Others(acts, k) && acts != []
    ensures Others(acts[..|acts| - 1], k) && Foreign(acts[|acts| - 1], k)
  {
    assert forall a | a in acts[..|acts| - 1] :: a in acts;
  }

  lemma {:induction false} ListingGoesOn(s: State, acts: seq<Action>, k: nat)
    requires Run(s, acts) && OneAttempt(acts) && Others(acts, k)
    requires k < |s.listers| && s.listers[k].Listing?
    ensures k < |Exec(s, acts).listers| && Exec(s, acts).listers[k].Listing?
    ensures Exec(s, acts).listers[k].snaps == s.listers[k].snaps
    decreases |acts|
  {
    hide Enabled, Do;
    if acts != [] {
      assert acts[|acts| - 1] in acts;
      FrontOthers(acts, k);
      ListingGoesOn(s, acts[..|acts| - 1], k);
      StillListing(Exec(s, acts[..|acts| - 1]), acts[|acts| - 1], k);
    }
  }

  ghost predicate LastNow(s: State, acts: seq<Action>, snaps: seq<Details>, at: seq<nat>)
    requires Run(s, acts) && SeenAt(s, acts, snaps, at) && snaps != []
  {
    at[|at| - 1] == |acts|
  }

  lemma SeenLast(s: State, acts: seq<Action>, snaps: seq<Details>, at: seq<nat>)
    requires Run(s, acts) && SeenAt(s, acts, snaps, at) && snaps != [] && LastNow(s, acts, snaps, at)
    ensures |at| == |snaps| && SeenAt(s, acts, snaps[..|snaps| - 1], at[..|at| - 1])
    ensures var c := snaps[|snaps| - 1]; c.id in Exec(s, acts).engine && Exec(s, acts).engine[c.id] == c
  {
    hide Exec, Run;
  }

  lemma SeenBefore(s: State, acts: seq<Action>, snaps: seq<Details>, at: seq<nat>)
    requires Run(s, acts) && SeenAt(s, acts, snaps, at) && acts != []
    requires snaps != [] ==> !LastNow(s, acts, snaps, at)
    ensures SeenAt(s, acts[..|acts| - 1], snaps, at)
  {
    assert forall n | 0 <= n < |at| :: at[n] <= at[|at| - 1] < |acts|;
  }

  lemma SnapStep(s: State, k: nat, snaps: seq<Details>, c: Details)
    requires k < |s.listers| && s.listers[k].Listing? && c.id in s.engine && s.engine[c.id] == c
    ensures Enabled(WithSnaps(s, k, snaps), Snap(k, c.id))
    ensures Do(WithSnaps(s, k, snaps), Snap(k, c.id)) == WithSnaps(s, k, snaps + [c])
  {
    assert s.listers[k := s.listers[k].(snaps := snaps)][k := s.listers[k].(snaps := snaps + [c])]
        == s.listers[k := s.listers[k].(snaps := snaps + [c])];
  }

  lemma ElsewhereMore(acts: seq<Action>, a: Action, k: nat)
    ensures Elsewhere(acts + [a], k) == Elsewhere(acts, k) + if LooksOn(a, k) then [] else [a]
  {
    assert (acts + [a])[..|acts|] == acts;
  }

  /** While others act, a listing can look at these containers at these instants. */
  lemma {:induction false} LooksAround(s: State, acts: seq<Action>, k: nat, snaps: seq<Details>, at: seq<nat>)
    returns (mixed: seq<Action>)
    requires Run(s, acts) && OneAttempt(acts) && Others(acts, k) && SeenAt(s, acts, snaps, at)
    requires k < |s.listers| && s.listers[k].Listing? && s.listers[k].snaps == []
    ensures Run(s, mixed) && OneAttempt(mixed) && Elsewhere(mixed, k) == acts
    ensures k < |Exec(s, acts).listers| && Exec(s, acts).listers[k].Listing?
    ensures Exec(s, mixed) == WithSnaps(Exec(s, acts), k, snaps)
    decreases |acts| + |snaps|
  {
    hide Enabled, Do, SeenAt;
    ListingGoesOn(s, acts, k);
    if snaps != [] && LastNow(s, acts, snaps, at) {
      SeenLast(s, acts, snaps, at);
      var c := snaps[|snaps| - 1];
      mixed := LooksAround(s, acts, k, snaps[..|snaps| - 1], at[..|at| - 1]);
      SnapStep(Exec(s, acts), k, snaps[..|snaps| - 1], c);
      assert snaps[..|snaps| - 1] + [c] == snaps;
      RunMore(s, mixed, Snap(k, c.id));
      ElsewhereMore(mixed, Snap(k, c.id), k);
      mixed := mixed + [Snap(k, c.id)];
    } else if acts != [] {
      var front, a := acts[..|acts| - 1], acts[|acts| - 1];
      SeenBefore(s, acts, snaps, at);
      FrontOthers(acts, k);
      mixed := LooksAround(s, front, k, snaps, at);
      NobodyCares(Exec(s, front), a, k, snaps);
      RunMore(s, mixed, a);
      ElsewhereMore(mixed, a, k);
      mixed := mixed + [a];
    } else {
      mixed := [];
      assert snaps == [] by { NoneSeen(s, acts, snaps, at); }
      assert s.listers[k := s.listers[k].(snaps := [])] == s.listers;
    }
  }

  lemma NoneSeen(s: State, acts: seq<Action>, snaps: seq<Details>, at: seq<nat>)
    requires Run(s, acts) && SeenAt(s, acts, snaps, at) && acts == []
    requires snaps != [] ==> !LastNow(s, acts, snaps, at)
    ensures snaps == []
  {
  }

  // ---- What Docker's listing has seen ----

  lemma {:induction false} AliveAfter(s: State, acts: seq<Action>, id: Id, t: nat)
    requires Run(s, acts) && AliveThroughout(s, acts, id) && t <= |acts|
    ensures id in EngineAfter(s, acts, t)
    decreases |acts|
  {
    hide Enabled, Do;
    if t < |acts| { AliveAfter(s, acts[..|acts| - 1], id, t); }
  }

  /** The instants at which the containers were inspected. */
  function Instants(at: seq<nat>, from: seq<nat>): (r: seq<nat>)
    requires forall n | 0 <= n < |from| :: from[n] < |at|
    ensures |r| == |from| && forall n | 0 <= n < |r| :: r[n] == at[from[n]]
  {
    seq(|from|, n requires 0 <= n < |from| => at[from[n]])
  }

  // The world that Docker's listing looks at is the engine of a protocol run.
  ghost predicate SameWorld(s: State, acts: seq<Action>, world: nat -> Moby.Docker)
    requires Run(s, acts)
  {
    (forall t: nat :: Moby.Regular(world(t))) && forall t: nat | t <= |acts| :: Shows(world(t), EngineAfter(s, acts, t))
  }

  lemma GatheredIsSeen(s: State, acts: seq<Action>, world: nat -> Moby.Docker, items: seq<Id>, at: seq<nat>,
                       alives: seq<Details>, from: seq<nat>)
    requires Run(s, acts) && SameWorld(s, acts, world) && |items| == |at|
    requires (forall i | 0 <= i < |at| :: at[i] <= |acts|) && (forall i, j | 0 <= i < j < |at| :: at[i] <= at[j])
    requires Moby.Gathered(world, items, at, alives, from)
    ensures forall n | 0 <= n < |from| :: from[n] < |at|
    ensures SeenAt(s, acts, alives, Instants(at, from))
  {
    hide Run, Exec, EngineAfter;
    forall n | 0 <= n < |from|
      ensures from[n] < |at| && alives[n].id in EngineAfter(s, acts, at[from[n]])
              && EngineAfter(s, acts, at[from[n]])[alives[n].id] == alives[n]
    {
      assert Moby.Witnessed(world, items, at, alives[n], from[n]);
      ShownAlive(world(at[from[n]]), EngineAfter(s, acts, at[from[n]]), alives[n].id);
    }
  }

  /** If a call of Docker's List begins after the protocol's listing has begun, and the
      engine goes through a run of the protocol meanwhile, then what List returns is what the
      listing may have seen in that run, looking at one container at a time; and it has seen
      enough to commit as soon as the gate is free. */
  lemma ListingIsLegal(s: State, acts: seq<Action>, k: nat, world: nat -> Moby.Docker, start: nat, items: seq<Id>,
                       at: seq<nat>, replies: seq<Moby.InspectReply>, alives: seq<Details>, from: seq<nat>)
    returns (mixed: seq<Action>)
    requires Run(s, acts) && OneAttempt(acts) && Others(acts, k)
    requires k < |s.listers| && s.listers[k] == Listing([], s.engine.Keys)
    requires SameWorld(s, acts, world) && Moby.Window(world, start, items, at, replies)
    requires start <= |acts| && forall i | 0 <= i < |at| :: at[i] <= |acts|
    // what List promises when it does not fail
    requires Moby.Gathered(world, items, at, alives, from)
    requires forall id | Moby.AliveThroughout(world, start, at, id) ::
               exists n :: 0 <= n < |alives| && alives[n].id == id
    ensures Run(s, mixed) && OneAttempt(mixed) && Elsewhere(mixed, k) == acts
    ensures k < |Exec(s, acts).listers| && Exec(s, acts).listers[k].Listing?
    ensures Exec(s, mixed) == WithSnaps(Exec(s, acts), k, alives)
    ensures GateFree(Exec(s, mixed)) ==> Enabled(Exec(s, mixed), ListDone(k))
  {
    hide Enabled, Do, Run, Exec;
    GatheredIsSeen(s, acts, world, items, at, alives, from);
    mixed := LooksAround(s, acts, k, alives, Instants(at, from));
    forall id | id in Exec(s, acts).listers[k].must ensures id in Ids(alives) {
      MustMeansThroughout(s, acts, k, id);
      ThroughoutToo(s, acts, world, start, at, id);
      var n :| 0 <= n < |alives| && alives[n].id == id;
    }
    CanCommit(Exec(s, mixed), k);
  }

  lemma CanCommit(s: State, k: nat)
    requires k < |s.listers| && s.listers[k].Listing? && s.listers[k].must <= Ids(s.listers[k].snaps)
    ensures GateFree(s) ==> Enabled(s, ListDone(k))
  {
  }

  lemma ThroughoutToo(s: State, acts: seq<Action>, world: nat -> Moby.Docker, start: nat, at: seq<nat>, id: Id)
    requires Run(s, acts) && SameWorld(s, acts, world) && AliveThroughout(s, acts, id)
    requires start <= |acts| && forall i | 0 <= i < |at| :: at[i] <= |acts|
    ensures Moby.AliveThroughout(world, start, at, id)
  {
    forall t: nat | t <= |acts| ensures Moby.HasProcess(world(t), id) {
      AliveAfter(s, acts, id, t);
      ShownAlive(world(t), EngineAfter(s, acts, t), id);
    }
  }
}
