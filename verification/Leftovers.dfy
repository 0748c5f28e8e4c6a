/** When an attempt is sure to converge, exactly; and what goes wrong otherwise. */
module Leftovers {
  import opened Containers
  import opened PauseQueue
  import opened WatcherModel
  import opened Protocol
  import opened OvertakenCommits
  import opened Convergence
  import opened UndisturbedRuns

  /** However the world is when the next attempt begins, and however it interleaves
      from there: at rest, the write portfolio is the engine's state. */
  ghost predicate SureToConverge(s: State) {
    forall world, acts |
      && Enabled(s, Attempt(world)) && Run(Do(s, Attempt(world)), acts) && OneAttempt(acts)
      && Quiescent(Exec(Do(s, Attempt(world)), acts)) ::
      Exec(Do(s, Attempt(world)), acts).view.write == Exec(Do(s, Attempt(world)), acts).engine
  }

  lemma CleanIsSure(s: State)
    requires Sound(s) && CleanAttempt(s)
    ensures SureToConverge(s)
  {
    forall world, acts |
      && Enabled(s, Attempt(world)) && Run(Do(s, Attempt(world)), acts) && OneAttempt(acts)
      && Quiescent(Exec(Do(s, Attempt(world)), acts))
      ensures Exec(Do(s, Attempt(world)), acts).view.write == Exec(Do(s, Attempt(world)), acts).engine
    {
      hide Enabled, Do, Kept, Run, Exec, CleanAttempt;
      KeptAttempt(s, world);
      KeptWithinAttempt(Do(s, Attempt(world)), acts);
      QuiescentAgrees(Exec(Do(s, Attempt(world)), acts));
    }
  }

  /** One diverging run suffices. */
  lemma Diverges(s: State, world: Engine, t: State, acts: seq<Action>, end: State)
    requires Enabled(s, Attempt(world)) && t == Do(s, Attempt(world))
    requires Run(t, acts) && OneAttempt(acts) && Exec(t, acts) == end && Quiescent(end)
    requires end.view.write != end.engine
    ensures !SureToConverge(s)
  {
  }

  // ---- With the gate free: tombstones, pause states ----

  /** An attempt in which nothing happens but the listing of the only container there is. */
  lemma ListOnly(s: State, c: Details) returns (t: State, acts: seq<Action>, end: State)
    requires s.handler.Idle? && GateFree(s)
    ensures Enabled(s, Attempt(map[c.id := c])) && t == Do(s, Attempt(map[c.id := c]))
    ensures Run(t, acts) && Plain(acts) && Exec(t, acts) == end
    ensures Quiescent(end) && end.engine == map[c.id := c]
    ensures end.view == CommitList(BeginList(BeginAttempt(s.view)), [c])
  {
    hide Run, Exec, CommitList;
    t := Do(s, Attempt(map[c.id := c]));
    var k := |s.listers|;
    assert GateFree(t) && t.listers[k] == Fired by {
      assert forall i | 0 <= i < k :: t.listers[i] == OvertakenLister(s.view, s.listers[i]);
    }
    acts := Lists(t, k, c);
    var u := Exec(t, acts);
    assert c.id in Ids([c]) by { assert [c][0].id == c.id; }
    var more := UndisturbedCommit(u, k);
    acts := Join(t, acts, u, more);
    end := Exec(t, acts);
  }

  /** What a fresh attempt makes of a single listed container, given what was left. */
  lemma CommitOne(v: View, c: Details)
    ensures var w := CommitList(BeginList(BeginAttempt(v)), [c]).write;
            && (c.id in v.tombs ==> c.id !in w)
            && (c.id !in v.tombs ==> c.id in w)
            && (c.id !in v.tombs && c.id in Pending(v.pauses) ==> w[c.id].paused == Pending(v.pauses)[c.id])
  {
    CommitClosedForm(BeginList(BeginAttempt(v)), [c], c.id);
    assert |v.write| == 0 ==> v.write == map[];
    OnlyListed(c);
  }

  lemma OnlyListed(c: Details)
    ensures FirstListed([c], c.id) == Some(c)
  {
    assert [c][..0] == [];
  }

  /** A tombstone left over from a failed listing hides the next container with that ID. */
  lemma TombstoneHides(s: State, id: Id)
    requires s.handler.Idle? && GateFree(s) && id in s.view.tombs
    ensures !SureToConverge(s)
  {
    var c := Details(id, "", "", 0, false);
    var t, acts, end := ListOnly(s, c);
    CommitOne(s.view, c);
    assert id in end.engine;
    Diverges(s, map[id := c], t, acts, end);
  }

  lemma LastPauseCounts(pauses: seq<PauseState>)
    requires pauses != []
    ensures var p := pauses[|pauses| - 1]; p.id in Pending(pauses) && Pending(pauses)[p.id] == p.paused
  {
  }

  /** A pause state left over from a failed listing falsifies the next listing. */
  lemma StalePauseFalsifies(s: State)
    requires s.handler.Idle? && GateFree(s) && s.view.pauses != []
    ensures !SureToConverge(s)
  {
    hide SureToConverge, GateFree;
    var p := s.view.pauses[|s.view.pauses| - 1];
    if p.id in s.view.tombs {
      TombstoneHides(s, p.id);
    } else {
      LastPauseCounts(s.view.pauses);
      PauseFalsifies(s, p);
    }
  }

  lemma PauseFalsifies(s: State, p: PauseState)
    requires s.handler.Idle? && GateFree(s) && p.id !in s.view.tombs
    requires p.id in Pending(s.view.pauses) && Pending(s.view.pauses)[p.id] == p.paused
    ensures !SureToConverge(s)
  {
    hide Run, Exec, Pending, CommitList, BeginList, BeginAttempt, GateFree;
    var c := Details(p.id, "", "", 0, !p.paused);
    var t, acts, end := ListOnly(s, c);
    CommitOne(s.view, c);
    assert end.engine[p.id].paused != end.view.write[p.id].paused;
    Diverges(s, map[p.id := c], t, acts, end);
  }

  // ---- A commit that is overtaken ----

  lemma WriteAfterCommit(v: View, t: Target, w: View)
    ensures t.Live? ==> Back(v, t, w).write == w.write
  {
  }

  /** Only one listing can be inside the gate: once its commit is over, the gate is free. */
  lemma OvertakenCommitEnds(t: State, k: nat) returns (acts: seq<Action>, u: State)
    requires Sound(t) && k < |t.listers| && t.listers[k].HoldsGate()
    ensures Run(t, acts) && Plain(acts) && Exec(t, acts) == u && GateFree(u)
    ensures u.engine == t.engine && u.queue == t.queue && u.handler == t.handler && u.consumed == t.consumed
    ensures u.listers == t.listers[k := Committed]
    ensures NothingLeft(u.view) && !u.view.listing
    ensures TargetOf(t.listers[k]).Live? ==> u.view.write == RestDone(t, t.listers[k]).write
  {
    hide Run, Exec, RestDone;
    assert InBounds(t.view, t.listers[k]);
    acts := FinishCommit(t, k);
    u := Exec(t, acts);
    WriteAfterCommit(t.view, TargetOf(t.listers[k]), RestDone(t, t.listers[k]));
  }

  /** The current attempt's own listing, when there is nothing but one container or none. */
  lemma ListsAtRest(u: State, last: nat, world: seq<Details>) returns (acts: seq<Action>, end: State)
    requires last == |u.listers| - 1 && u.listers[last].Fired? && GateFree(u) && NothingLeft(u.view)
    requires u.queue == [] && u.handler.Idle? && |world| <= 1
    requires u.engine == if world == [] then map[] else map[world[0].id := world[0]]
    ensures Run(u, acts) && Plain(acts) && Exec(u, acts) == end
    ensures Quiescent(end) && end.engine == u.engine
    ensures forall id | id in u.view.write :: id in end.view.write && end.view.write[id] == u.view.write[id]
  {
    hide Run, Exec, CommitList;
    if world == [] {
      acts := NothingYet(u);
      acts := Then(u, acts, ListStart(last));
    } else {
      acts := Lists(u, last, world[0]);
      assert world[0].id in Ids([world[0]]) by { assert [world[0]][0].id == world[0].id; }
    }
    var v := Exec(u, acts);
    var more := UndisturbedCommit(v, last);
    acts := Join(u, acts, v, more);
    end := Exec(u, acts);
    forall id | id in u.view.write ensures id in end.view.write && end.view.write[id] == u.view.write[id] {
      CommitClosedForm(v.view, v.listers[last].snaps, id);
    }
  }

  /** A listing that goes on committing to the portfolio of the next attempt. */
  ghost predicate GoesOn(s: State, k: nat) {
    Sound(s) && s.handler.Idle? && k < |s.listers| && s.listers[k].HoldsGate() && !LeftBehind(s, s.listers[k])
  }

  lemma GoesOnLive(s: State, k: nat) returns (t: State)
    requires GoesOn(s, k)
    ensures Enabled(s, Attempt(map[])) && t == Do(s, Attempt(map[])) && Sound(t)
    ensures t.listers[k] == s.listers[k] && TargetOf(t.listers[k]).Live? && |t.listers| == |s.listers| + 1
    ensures t.listers[|s.listers|].Fired?
    ensures t.view.write == map[] && t.view.tombs == s.view.tombs && t.view.pauses == s.view.pauses
    ensures t.engine == map[] && t.queue == [] && t.handler.Idle?
  {
    t := Do(s, Attempt(map[]));
    SoundAttempt(s, map[]);
    assert |s.view.write| == 0 ==> s.view.write == map[];
    assert t.listers[k] == OvertakenLister(s.view, s.listers[k]);
  }

  lemma FirstListedSome(alives: seq<Details>, c: Details)
    requires c in alives
    ensures FirstListed(alives, c.id).Some?
  {
    FirstListedIsListed(alives, c.id);
  }

  /** What it has yet to add is from the world of before, and is dead in this one. */
  lemma OvertakenCommitAdds(s: State, k: nat, c: Details)
    requires GoesOn(s, k) && c in ToAdd(s.listers[k]) && c.id !in s.view.tombs
    ensures !SureToConverge(s)
  {
    hide Run, Exec, Do, Enabled;
    var t := GoesOnLive(s, k);
    var acts, u := OvertakenCommitEnds(t, k);
    AddListedClosedForm(t.view, ToAdd(t.listers[k]), c.id);
    FirstListedSome(ToAdd(t.listers[k]), c);
    PlayBackClosedForm(AddListed(t.view, ToAdd(t.listers[k])), ToPlay(t.listers[k], t.view.pauses), c.id);
    assert c.id in u.view.write;
    var more, end := ListsAtRest(u, |s.listers|, []);
    acts := Join(t, acts, u, more);
    Diverges(s, map[], t, acts, end);
  }

  /** What it has yet to play back falsifies a container that was born meanwhile. */
  lemma OvertakenCommitPlays(s: State, k: nat)
    requires GoesOn(s, k) && ToPlay(s.listers[k], s.view.pauses) != []
    ensures !SureToConverge(s)
  {
    hide Run, Exec, Do, Enabled;
    var pauses := ToPlay(s.listers[k], s.view.pauses);
    var p := pauses[|pauses| - 1];
    var c := Details(p.id, "", "", 0, !p.paused);
    var t := GoesOnLive(s, k);
    var acts := IsBorn(t, c);
    var v := Exec(t, acts);
    SoundRun(t, acts);
    var more, u := OvertakenCommitEnds(v, k);
    acts := Join(t, acts, v, more);
    AddListedClosedForm(v.view, ToAdd(t.listers[k]), c.id);
    PlayBackClosedForm(AddListed(v.view, ToAdd(t.listers[k])), pauses, c.id);
    LastPauseCounts(pauses);
    assert u.view.write[c.id].paused == p.paused;
    var last, end := ListsAtRest(u, |s.listers|, [c]);
    acts := Join(t, acts, u, last);
    assert end.view.write[c.id] != end.engine[c.id];
    Diverges(s, map[], t, acts, end);
  }

  // ---- A listing that commits late ----

  /** The container dies, and the event thread has come to know. */
  lemma DiesAtGate(t: State, c: Details) returns (acts: seq<Action>, u: State)
    requires t.listers != [] && GateFree(t) && t.handler.Idle? && t.queue == [] && t.engine == map[c.id := c]
    ensures Run(t, acts) && Plain(acts) && Exec(t, acts) == u
    ensures u.handler == Burying(c.id) && u.queue == [] && Enabled(u, Finish)
    ensures var end := Do(u, Finish);
            end.engine == map[] && end.queue == [] && end.handler.Idle? && end.listers == Missing(t.listers, c.id)
  {
    hide Run, Exec;
    acts := NothingYet(t);
    acts := Then(t, acts, EngineStop(c.id));
    acts := Then(t, acts, Pop);
    u := Exec(t, acts);
    assert t.engine - {c.id} == map[];
  }

  lemma BothListing(t: State, k: nat, last: nat, c: Details) returns (acts: seq<Action>, end: State)
    requires k < last < |t.listers| && t.listers[last].Fired? && GateFree(t) && t.engine == map[c.id := c]
    requires t.listers[k].Fired? || (t.listers[k].Listing? && t.listers[k].must == {})
    ensures Run(t, acts) && Plain(acts) && Exec(t, acts) == end
    ensures end.engine == t.engine && end.queue == t.queue && end.handler == t.handler && GateFree(end)
    ensures |end.listers| == |t.listers| && end.listers[last] == Listing([c], {c.id})
    ensures end.listers[k].Listing? && end.listers[k].must <= {c.id}
  {
    acts := Lists(t, last, c);
    if t.listers[k].Fired? {
      acts := Then(t, acts, ListStart(k));
    }
    end := Exec(t, acts);
  }

  /** The late commit clears the tombstones, and the current one adds what it listed. */
  lemma CommitsLate(w: State, k: nat, last: nat, c: Details) returns (acts: seq<Action>, end: State)
    requires k < last == |w.listers| - 1 && GateFree(w)
    requires w.listers[k].Listing? && w.listers[k].must == {} && w.listers[last] == Listing([c], {})
    ensures Run(w, acts) && Plain(acts) && StartsNothing(acts) && Exec(w, acts) == end
    ensures end.engine == w.engine && end.queue == w.queue && end.handler == w.handler
    ensures |end.listers| == |w.listers| && end.listers[last] == Committed
    ensures c.id in end.view.write
  {
    hide Run, Exec;
    acts := UndisturbedCommit(w, k);
    var x := Exec(w, acts);
    var more := UndisturbedCommit(x, last);
    acts := Join(w, acts, x, more);
    end := Exec(w, acts);
    CommitClosedForm(w.view, w.listers[k].snaps, c.id);
    CommitClosedForm(x.view, [c], c.id);
    OnlyListed(c);
  }

  ghost predicate LateStart(t: State, k: nat, last: nat, c: Details) {
    && k < last == |t.listers| - 1 && t.listers[last].Fired? && GateFree(t) && t.engine == map[c.id := c]
    && (t.listers[k].Fired? || (t.listers[k].Listing? && t.listers[k].must == {}))
    && t.handler.Idle? && t.queue == []
  }

  lemma DiesUnlisted(t: State, k: nat, last: nat, c: Details) returns (acts: seq<Action>, u: State)
    requires LateStart(t, k, last, c)
    ensures Run(t, acts) && Plain(acts) && Exec(t, acts) == u
    ensures u.handler == Burying(c.id) && u.queue == [] && Enabled(u, Finish)
    ensures var w := Do(u, Finish);
            && w.engine == map[] && w.queue == [] && w.handler.Idle? && GateFree(w) && |w.listers| == |t.listers|
            && w.listers[k].Listing? && w.listers[k].must == {} && w.listers[last] == Listing([c], {})
  {
    hide Run, Exec, Enabled, Do;
    var v;
    acts, v := BothListing(t, k, last, c);
    var more;
    more, u := DiesAtGate(v, c);
    acts := Join(t, acts, v, more);
    MissingGateFree(v, c.id);
  }

  lemma MissingGateFree(v: State, id: Id)
    requires GateFree(v)
    ensures forall k | 0 <= k < |v.listers| :: !Missing(v.listers, id)[k].HoldsGate()
  {
  }

  /** Up to the death being handled, and from there on. */
  lemma LateRun(t: State, k: nat, last: nat, c: Details)
    returns (acts: seq<Action>, u: State, more: seq<Action>, end: State)
    requires LateStart(t, k, last, c)
    ensures Run(t, acts) && Plain(acts) && Exec(t, acts) == u
    ensures u.handler == Burying(c.id) && u.queue == [] && Enabled(u, Finish)
    ensures Run(Do(u, Finish), more) && Plain(more) && StartsNothing(more) && Exec(Do(u, Finish), more) == end
    ensures Quiescent(end) && end.engine == map[] && c.id in end.view.write
  {
    hide Run, Exec, Enabled, Do;
    acts, u := DiesUnlisted(t, k, last, c);
    more, end := CommitsLate(Do(u, Finish), k, last, c);
  }

  /** If a commit is under way when the attempt begins, it ends first. */
  lemma GateComesFree(t: State) returns (acts: seq<Action>, u: State)
    requires Sound(t)
    ensures Run(t, acts) && Plain(acts) && Exec(t, acts) == u && GateFree(u)
    ensures u.engine == t.engine && u.queue == t.queue && u.handler == t.handler
    ensures |u.listers| == |t.listers|
    ensures forall k | 0 <= k < |t.listers| && !t.listers[k].HoldsGate() :: u.listers[k] == t.listers[k]
  {
    hide Run, Exec, Sound;
    if GateFree(t) {
      acts := NothingYet(t);
      u := t;
    } else {
      var k :| 0 <= k < |t.listers| && t.listers[k].HoldsGate();
      acts, u := OvertakenCommitEnds(t, k);
    }
  }

  /** A listing of an earlier attempt that commits late clears the tombstones under a
      listing in progress, which then brings the dead back. */
  lemma DeadIsRaised(s: State, k: nat, c: Details)
    returns (t: State, acts: seq<Action>, u: State, more: seq<Action>, end: State)
    requires Sound(s) && s.handler.Idle? && k < |s.listers| && !s.listers[k].Over() && !s.listers[k].HoldsGate()
    ensures Enabled(s, Attempt(map[c.id := c])) && t == Do(s, Attempt(map[c.id := c]))
    ensures Run(t, acts) && Plain(acts) && Exec(t, acts) == u
    ensures u.handler == Burying(c.id) && u.queue == [] && Enabled(u, Finish)
    ensures Run(Do(u, Finish), more) && Plain(more) && StartsNothing(more) && Exec(Do(u, Finish), more) == end
    ensures Quiescent(end) && end.engine == map[] && c.id in end.view.write
  {
    hide Run, Exec, Sound, Quiescent;
    t := Do(s, Attempt(map[c.id := c]));
    SoundAttempt(s, map[c.id := c]);
    assert t.listers[k] == OvertakenLister(s.view, s.listers[k]) && t.listers[|s.listers|] == Fired;
    var first, v := GateComesFree(t);
    acts, u, more, end := LateRun(v, k, |s.listers|, c);
    acts := Join(t, first, v, acts);
  }

  lemma LateCommitRaisesTheDead(s: State, k: nat)
    requires Sound(s) && s.handler.Idle? && k < |s.listers| && !s.listers[k].Over() && !s.listers[k].HoldsGate()
    ensures !SureToConverge(s)
  {
    hide Run, Exec, Sound, Enabled, Do;
    var c := Details("", "", "", 0, false);
    var t, acts, u, more, end := DeadIsRaised(s, k, c);
    acts := Then(t, acts, Finish);
    acts := Join(t, acts, Do(u, Finish), more);
    Diverges(s, map[c.id := c], t, acts, end);
  }

  // ---- All ways ----

  lemma HarmfulIsUnsure(s: State, k: nat)
    requires Sound(s) && s.handler.Idle? && k < |s.listers| && s.listers[k].HoldsGate() && !Harmless(s, s.listers[k])
    ensures !SureToConverge(s)
  {
    if ToPlay(s.listers[k], s.view.pauses) != [] {
      OvertakenCommitPlays(s, k);
    } else {
      var c :| c in ToAdd(s.listers[k]) && c.id !in s.view.tombs;
      OvertakenCommitAdds(s, k, c);
    }
  }

  /** An attempt is sure to converge if and only if the listings of all earlier attempts
      are over and have left neither tombstones nor pause states behind; or one of them is
      in the middle of its commit, and can do nothing to the new portfolio any more. */
  lemma SureIffClean(s: State)
    requires Sound(s) && s.handler.Idle?
    ensures SureToConverge(s) <==> CleanAttempt(s)
  {
    hide SureToConverge, Sound, Harmless;
    if CleanAttempt(s) {
      CleanIsSure(s);
    } else if k :| 0 <= k < |s.listers| && !s.listers[k].Over() && !s.listers[k].HoldsGate() {
      LateCommitRaisesTheDead(s, k);
    } else if k :| 0 <= k < |s.listers| && s.listers[k].HoldsGate() && !Harmless(s, s.listers[k]) {
      HarmfulIsUnsure(s, k);
    } else if s.view.tombs != [] {
      TombstoneHides(s, s.view.tombs[0]);
    } else {
      StalePauseFalsifies(s);
    }
  }
}
