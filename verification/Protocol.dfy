/** The synchronisation protocol between a container engine that keeps changing,
    the thread that handles its lifecycle events, and the threads that list it.

    A state is changed by actions. Each action is one engine change, or one section
    of a watcher thread that no other thread can interrupt; a run is any sequence of
    enabled actions, so that it may interleave all threads in every way. */
module Protocol {
  import opened Containers
  import opened PauseQueue
  import opened WatcherModel

  type Engine = map<Id, Details>

  // Lifecycle events as the engine queues them. Handlers use the ID of a birth only.
  datatype Event = Born(birth: Details) | Died(id: Id) | PauseSet(id: Id, paused: bool)

  // Where the event thread is in handling the event it took from the queue last.
  datatype Handler =
    | Idle
    | Inspecting(birth: Details)
    | Inspected(birth: Details, seen: Details)
    | Burying(id: Id)
    | Pausing(id: Id, paused: bool)

  // Where a listing thread is. `must` are the containers alive ever since it began.
  datatype Lister =
    | Fired
    | Listing(snaps: seq<Details>, must: set<Id>)
    | Gated(listed: seq<Details>)
    | Adding(listed: seq<Details>, next: nat, target: Target)
    | Playing(next: nat, target: Target)
    | Committed
    | Published
    | Failed
  {
    predicate HoldsGate() { Gated? || Adding? || Playing? }

    predicate Over() { Committed? || Published? || Failed? }

    function Retargeted(t: Target): Lister {
      if Adding? || Playing? then this.(target := t) else this
    }
  }

  // `consumed` is the engine as it was right after the last event handled completely.
  datatype State = State(
    engine: Engine,
    consumed: Engine,
    queue: seq<Event>,
    handler: Handler,
    view: View,
    listers: seq<Lister>)

  datatype Action =
    | EngineStart(c: Details)
    | EngineStop(id: Id)
    | EnginePause(id: Id, paused: bool)
    | Attempt(world: Engine)
    | Pop
    | Inspect
    | Finish
    | ListStart(k: nat)
    | Snap(k: nat, id: Id)
    | ListDone(k: nat)
    | GetHold(k: nat)
    | AddNext(k: nat)
    | AllAdded(k: nat)
    | PlayNext(k: nat)
    | Release(k: nat)
    | ListFail(k: nat)
    | Publish(k: nat)

  // ---- The engine ----

  predicate Allowed(m: Engine, e: Event) {
    match e
    case Born(c) => c.id !in m
    case Died(id) => id in m
    case PauseSet(id, _) => id in m
  }

  function Happened(m: Engine, e: Event): Engine {
    match e
    case Born(c) => m[c.id := c]
    case Died(id) => m - {id}
    case PauseSet(id, paused) => if id in m then m[id := m[id].(paused := paused)] else m
  }

  /** The engine changes and queues the event; listings lose what died meanwhile. */
  function Emit(s: State, e: Event): State {
    s.(engine := Happened(s.engine, e),
       queue := s.queue + [e],
       listers := if e.Died? then Missing(s.listers, e.id) else s.listers)
  }

  function Missing(ls: seq<Lister>, id: Id): (r: seq<Lister>)
    ensures |r| == |ls|
    ensures forall i | 0 <= i < |ls| ::
              r[i] == if ls[i].Listing? then ls[i].(must := ls[i].must - {id}) else ls[i]
  {
    seq(|ls|, i requires 0 <= i < |ls| => if ls[i].Listing? then ls[i].(must := ls[i].must - {id}) else ls[i])
  }

  // Nothing is known about lives that a listing of an earlier attempt missed.
  function OvertakenLister(v: View, l: Lister): Lister {
    if l.Listing? then l.(must := {})
    else if l.Adding? || l.Playing? then l.Retargeted(Overtaken(v, l.target))
    else l
  }

  function OvertakenAll(v: View, ls: seq<Lister>): (r: seq<Lister>)
    ensures |r| == |ls|
    ensures forall i | 0 <= i < |ls| :: r[i] == OvertakenLister(v, ls[i])
  {
    seq(|ls|, i requires 0 <= i < |ls| => OvertakenLister(v, ls[i]))
  }

  function UnseenAll(v: View, ls: seq<Lister>): (r: seq<Lister>)
    ensures |r| == |ls|
    ensures forall i | 0 <= i < |ls| ::
              r[i] == if ls[i].Adding? || ls[i].Playing? then ls[i].Retargeted(Unseen(v, ls[i].target)) else ls[i]
  {
    seq(|ls|, i requires 0 <= i < |ls| =>
      if ls[i].Adding? || ls[i].Playing? then ls[i].Retargeted(Unseen(v, ls[i].target)) else ls[i])
  }

  // ---- The watcher ----

  predicate GateFree(s: State) {
    forall k | 0 <= k < |s.listers| :: !s.listers[k].HoldsGate()
  }

  function Ids(snaps: seq<Details>): set<Id> {
    set i | 0 <= i < |snaps| :: snaps[i].id
  }

  /** The event thread takes the next event and passes the gate where it has to. */
  function Popped(s: State): State
    requires s.queue != []
  {
    var rest := s.(queue := s.queue[1..]);
    match s.queue[0]
    case Born(c) => rest.(handler := Inspecting(c))
    case Died(id) => rest.(handler := Burying(id), view := GateExited(s.view, id))
    case PauseSet(id, paused) =>
      if s.view.listing
      then rest.(view := GatePaused(s.view, id, paused), consumed := Happened(s.consumed, s.queue[0]))
      else rest.(handler := Pausing(id, paused))
  }

  /** It asks the engine about a newborn, which may be gone, or reborn, by now. */
  function Looked(s: State): State
    requires s.handler.Inspecting?
  {
    var birth := s.handler.birth;
    if birth.id in s.engine then s.(handler := Inspected(birth, s.engine[birth.id]))
    else s.(handler := Idle, consumed := Happened(s.consumed, Born(birth)))
  }

  /** It updates the write portfolio and notifies the subscribers. */
  function Finished(s: State): State
    requires s.handler.Inspected? || s.handler.Burying? || s.handler.Pausing?
  {
    var v := match s.handler
      case Inspected(_, seen) => AddContainer(s.view, seen)
      case Burying(id) => RemoveContainer(s.view, id)
      case Pausing(id, paused) => ChangePaused(s.view, id, paused);
    s.(handler := Idle, view := v, consumed := Happened(s.consumed, InHand(s.handler)[0]))
  }

  /** The event the handler is still busy with. */
  function InHand(h: Handler): seq<Event> {
    match h
    case Idle => []
    case Inspecting(birth) => [Born(birth)]
    case Inspected(birth, _) => [Born(birth)]
    case Burying(id) => [Died(id)]
    case Pausing(id, paused) => [PauseSet(id, paused)]
  }

  predicate Enabled(s: State, a: Action) {
    match a
    case EngineStart(c) => Allowed(s.engine, Born(c))
    case EngineStop(id) => Allowed(s.engine, Died(id))
    case EnginePause(id, paused) => Allowed(s.engine, PauseSet(id, paused))
    case Attempt(world) => s.handler.Idle? && forall id | id in world :: world[id].id == id
    case Pop => s.listers != [] && s.handler.Idle? && s.queue != [] && (s.queue[0].Born? || GateFree(s))
    case Inspect => s.handler.Inspecting?
    case Finish => s.handler.Inspected? || s.handler.Burying? || s.handler.Pausing?
    case ListStart(k) => k < |s.listers| && s.listers[k].Fired? && GateFree(s)
    case Snap(k, id) => k < |s.listers| && s.listers[k].Listing? && id in s.engine
    case ListDone(k) => k < |s.listers| && s.listers[k].Listing? && GateFree(s)
                        && s.listers[k].must <= Ids(s.listers[k].snaps)
    case GetHold(k) => k < |s.listers| && s.listers[k].Gated?
    case AddNext(k) => k < |s.listers| && s.listers[k].Adding? && s.listers[k].next < |s.listers[k].listed|
    case AllAdded(k) => k < |s.listers| && s.listers[k].Adding? && s.listers[k].next == |s.listers[k].listed|
    case PlayNext(k) => k < |s.listers| && s.listers[k].Playing? && s.listers[k].next < |s.view.pauses|
    case Release(k) => k < |s.listers| && s.listers[k].Playing? && s.listers[k].next == |s.view.pauses|
    case ListFail(k) => k < |s.listers| && s.listers[k].Listing?
    case Publish(k) => k < |s.listers| && s.listers[k].Committed?
  }

  function Do(s: State, a: Action): State
    requires Enabled(s, a)
  {
    match a
    case EngineStart(c) => Emit(s, Born(c))
    case EngineStop(id) => Emit(s, Died(id))
    case EnginePause(id, paused) => Emit(s, PauseSet(id, paused))
    case Attempt(world) =>
      State(world, world, [], Idle, BeginAttempt(s.view), OvertakenAll(s.view, s.listers) + [Fired])
    case Pop => Popped(s)
    case Inspect => Looked(s)
    case Finish => Finished(s)
    case ListStart(k) => s.(listers := s.listers[k := Listing([], s.engine.Keys)], view := BeginList(s.view))
    case Snap(k, id) =>
      var l := s.listers[k];
      s.(listers := s.listers[k := l.(snaps := l.snaps + [s.engine[id]])])
    case ListDone(k) => s.(listers := s.listers[k := Gated(s.listers[k].snaps)])
    case GetHold(k) => s.(listers := s.listers[k := Adding(s.listers[k].listed, 0, Live)])
    case AddNext(k) =>
      var Adding(listed, next, target) := s.listers[k];
      var v := Through(s.view, target);
      var w := if listed[next].id in v.tombs then v else AddContainer(v, listed[next]);
      s.(listers := s.listers[k := Adding(listed, next + 1, TargetBack(target, w))], view := Back(s.view, target, w))
    case AllAdded(k) => s.(listers := s.listers[k := Playing(0, s.listers[k].target)])
    case PlayNext(k) =>
      var Playing(next, target) := s.listers[k];
      var pause := s.view.pauses[next];
      var w := ChangePaused(Through(s.view, target), pause.id, pause.paused);
      s.(listers := s.listers[k := Playing(next + 1, TargetBack(target, w))], view := Back(s.view, target, w))
    case Release(k) =>
      s.(listers := s.listers[k := Committed],
         view := s.view.(tombs := [], pauses := [], listing := false))
    case ListFail(k) => s.(listers := s.listers[k := Failed])
    case Publish(k) =>
      s.(listers := UnseenAll(s.view, s.listers[k := Published]), view := WatcherModel.Publish(s.view))
  }

  // ---- Runs ----

  /** Before the first attempt, in whatever world. */
  function Start(world: Engine): State {
    State(world, world, [], Idle, NEW_VIEW, [])
  }

  predicate Run(s: State, acts: seq<Action>)
    decreases |acts|, 0
  {
    acts == [] ||
    (Run(s, acts[..|acts| - 1]) && Enabled(Exec(s, acts[..|acts| - 1]), acts[|acts| - 1]))
  }

  function Exec(s: State, acts: seq<Action>): State
    requires Run(s, acts)
    decreases |acts|, 1
  {
    if acts == [] then s
    else Do(Exec(s, acts[..|acts| - 1]), acts[|acts| - 1])
  }

  // ---- What an attempt may find of earlier ones ----

  predicate NothingLeft(v: View) {
    v.tombs == [] && v.pauses == []
  }

  /** What a commit has not added yet. */
  function ToAdd(l: Lister): seq<Details> {
    match l
    case Gated(listed) => listed
    case Adding(listed, next, _) => if next <= |listed| then listed[next..] else []
    case _ => []
  }

  /** And the pause states that it has not played back yet. */
  function ToPlay(l: Lister, pauses: seq<PauseState>): seq<PauseState> {
    match l
    case Playing(next, _) => if next <= |pauses| then pauses[next..] else []
    case _ => pauses
  }

  /** The commit got hold of a portfolio that the next attempt will not write to. */
  predicate LeftBehind(s: State, l: Lister) {
    (l.Adding? || l.Playing?) && (!l.target.Live? || |s.view.write| != 0)
  }

  /** A commit under way can do nothing to the portfolio of the next attempt: it writes
      to another one, or all that it has left to add is dead and it plays nothing back. */
  predicate Harmless(s: State, l: Lister) {
    LeftBehind(s, l) || ((forall c | c in ToAdd(l) :: c.id in s.view.tombs) && ToPlay(l, s.view.pauses) == [])
  }

  /** An attempt may rely on earlier ones if their listings are over and have left neither
      tombstones nor pause states; except that one of them may be in the middle of a
      harmless commit, which is going to clear the tombstones and pause states. */
  predicate CleanAttempt(s: State) {
    && (forall k | 0 <= k < |s.listers| ::
          s.listers[k].Over() || (s.listers[k].HoldsGate() && Harmless(s, s.listers[k])))
    && (GateFree(s) ==> NothingLeft(s.view))
  }

  ghost predicate CleanRun(s: State, acts: seq<Action>)
    requires Run(s, acts)
  {
    acts == [] ||
    (CleanRun(s, acts[..|acts| - 1]) &&
     (acts[|acts| - 1].Attempt? ==> CleanAttempt(Exec(s, acts[..|acts| - 1]))))
  }

  /** The current attempt's listing has committed and no event is left to handle. */
  predicate Quiescent(s: State) {
    && s.listers != [] && (s.listers[|s.listers| - 1].Committed? || s.listers[|s.listers| - 1].Published?)
    && s.queue == [] && s.handler.Idle?
  }
}
