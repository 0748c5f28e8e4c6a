/** The watcher's shared state as a value, and its atomic steps as functions.
    Every function below is one section of watcher.go that other threads cannot
    interrupt; module WatcherObjects proves the imperative code against them. */
module WatcherModel {
  import opened Containers
  import opened PauseQueue

  datatype EventType = Started | Exited | Paused | Unpaused

  datatype Note = Note(kind: EventType, container: Details)

  // Either readers see the portfolio being written, or an older one.
  datatype Reader = Shared | Still(content: map<Id, Details>)

  datatype View = View(
    write: map<Id, Details>,   // the write portfolio, by ID
    read: Reader,              // the read portfolio
    listing: bool,             // a listing is in progress
    tombs: seq<Id>,            // IDs that died while it was
    pauses: seq<PauseState>,   // pause states seen while it was
    log: seq<Note>)            // notifications of the current attempt
  {
    function Visible(): map<Id, Details> {
      if read.Shared? then write else read.content
    }
  }

  const NEW_VIEW := View(map[], Shared, false, [], [], [])

  /** A new attempt: start over with an empty portfolio, unless it is empty already;
      readers keep a non-empty one. */
  function BeginAttempt(v: View): View {
    RenewRead(RenewWrite(v)).(log := [])
  }

  function RenewWrite(v: View): View {
    if |v.write| != 0 then v.(write := map[], read := Still(v.Visible())) else v
  }

  function RenewRead(v: View): View {
    if |v.Visible()| == 0 then v.(read := Shared) else v
  }

  function BeginList(v: View): View {
    v.(listing := true)
  }

  /** The gated part of a death: leave a tombstone, forget queued pause states. */
  function GateExited(v: View, id: Id): View {
    v.(tombs := if v.listing then v.tombs + [id] else v.tombs, pauses := Removed(v.pauses, id))
  }

  /** The gated part of a pause state change: queue it while a listing is in progress. */
  function GatePaused(v: View, id: Id, paused: bool): View {
    if v.listing then v.(pauses := Added(v.pauses, id, paused)) else v
  }

  function AddContainer(v: View, c: Details): View {
    if c.id in v.write then v
    else v.(write := v.write[c.id := c], log := v.log + [Note(Started, c)])
  }

  function RemoveContainer(v: View, id: Id): View {
    if id !in v.write then v
    else v.(write := v.write - {id}, log := v.log + [Note(Exited, v.write[id])])
  }

  function ChangePaused(v: View, id: Id, paused: bool): View {
    if id !in v.write then v
    else
      var c := v.write[id].(paused := paused);
      v.(write := v.write[id := c], log := v.log + [Note(if paused then Paused else Unpaused, c)])
  }

  function AddListed(v: View, alives: seq<Details>): View {
    if alives == [] then v
    else
      var v' := AddListed(v, alives[..|alives| - 1]);
      var alive := alives[|alives| - 1];
      if alive.id in v'.tombs then v' else AddContainer(v', alive)
  }

  function PlayBack(v: View, pauses: seq<PauseState>): View {
    if pauses == [] then v
    else
      var last := pauses[|pauses| - 1];
      ChangePaused(PlayBack(v, pauses[..|pauses| - 1]), last.id, last.paused)
  }

  function CommitList(v: View, alives: seq<Details>): View {
    PlayBack(AddListed(v, alives), v.pauses).(tombs := [], pauses := [], listing := false)
  }

  function Publish(v: View): View {
    v.(read := Shared)
  }

  // ---- Portfolios that have been replaced ----

  // The portfolio that a commit got hold of: still the write portfolio; or one that an
  // attempt has replaced, which readers still look at, or which nobody looks at any more.
  datatype Target = Live | Old | Lost(content: map<Id, Details>)

  /** The view as a commit sees it: its own portfolio is the write portfolio. */
  function Through(v: View, t: Target): View {
    match t
    case Live => v
    case Old => v.(write := v.Visible(), read := Shared)
    case Lost(content) => v.(write := content)
  }

  /** The view after a commit has made `w` of what it saw through its portfolio. */
  function Back(v: View, t: Target, w: View): View {
    match t
    case Live => w
    case Old => v.(read := if v.read.Still? then Still(w.write) else Shared, log := w.log)
    case Lost(_) => v.(log := w.log)
  }

  function TargetBack(t: Target, w: View): Target {
    if t.Lost? then Lost(w.write) else t
  }

  /** What becomes of a commit's portfolio when an attempt begins. */
  function Overtaken(v: View, t: Target): Target {
    var u := if t.Live? && |v.write| != 0 then (if v.read.Shared? then Old else Lost(v.write)) else t;
    if |v.Visible()| == 0 then Unseen(v, u) else u
  }

  /** And when readers are given the write portfolio. */
  function Unseen(v: View, t: Target): Target {
    if t.Old? then Lost(v.Visible()) else t
  }

  // ---- The listing commit in closed form ----

  function FirstListed(alives: seq<Details>, id: Id): Option<Details> {
    if alives == [] then None
    else
      var earlier := FirstListed(alives[..|alives| - 1], id);
      var last := alives[|alives| - 1];
      if earlier.Some? then earlier else if last.id == id then Some(last) else None
  }

  lemma {:induction false} FirstListedIsListed(alives: seq<Details>, id: Id)
    ensures FirstListed(alives, id).Some? <==> exists i :: 0 <= i < |alives| && alives[i].id == id
    ensures FirstListed(alives, id).Some? ==>
              FirstListed(alives, id).value in alives && FirstListed(alives, id).value.id == id
  {
    if alives != [] {
      var front := alives[..|alives| - 1];
      FirstListedIsListed(front, id);
      if i :| 0 <= i < |alives| && alives[i].id == id { assert i < |front| ==> front[i].id == id; }
    }
  }

  function Starts(log: seq<Note>, id: Id): nat {
    if log == [] then 0
    else
      var n := log[|log| - 1];
      Starts(log[..|log| - 1], id) + if n.kind == Started && n.container.id == id then 1 else 0
  }

  ghost predicate SameButWriteAndLog(v: View, w: View) {
    w == v.(write := w.write, log := w.log)
  }

  lemma {:induction false} AddListedClosedForm(v: View, alives: seq<Details>, id: Id)
    ensures var w := AddListed(v, alives);
            var added := id !in v.write && id !in v.tombs && FirstListed(alives, id).Some?;
            && SameButWriteAndLog(v, w)
            && (id in w.write <==> id in v.write || added)
            && (id in v.write ==> w.write[id] == v.write[id])
            && (added ==> w.write[id] == FirstListed(alives, id).value)
            && Starts(w.log, id) == Starts(v.log, id) + if added then 1 else 0
  {
    if alives != [] {
      var front := alives[..|alives| - 1];
      var alive := alives[|alives| - 1];
      AddListedClosedForm(v, front, id);
      AddListedClosedForm(v, front, alive.id);
      var v' := AddListed(v, front);
      assert (v'.log + [Note(Started, alive)])[..|v'.log|] == v'.log;
    }
  }

  lemma ChangeClosedForm(v: View, p: PauseState, id: Id)
    ensures var w := ChangePaused(v, p.id, p.paused);
            && SameButWriteAndLog(v, w)
            && (id in w.write <==> id in v.write)
            && (id in v.write ==>
                  w.write[id] == if id == p.id then v.write[id].(paused := p.paused) else v.write[id])
            && Starts(w.log, id) == Starts(v.log, id)
  {
    var w := ChangePaused(v, p.id, p.paused);
    if p.id in v.write { assert w.log[..|w.log| - 1] == v.log; }
  }

  lemma {:induction false} PlayBackClosedForm(v: View, pauses: seq<PauseState>, id: Id)
    ensures var w := PlayBack(v, pauses);
            && SameButWriteAndLog(v, w)
            && (id in w.write <==> id in v.write)
            && (id in v.write ==>
                  w.write[id] ==
                  if id in Pending(pauses) then v.write[id].(paused := Pending(pauses)[id]) else v.write[id])
            && Starts(w.log, id) == Starts(v.log, id)
  {
    if pauses != [] {
      hide ChangePaused, Starts;
      var front, last := pauses[..|pauses| - 1], pauses[|pauses| - 1];
      PlayBackClosedForm(v, front, id);
      ChangeClosedForm(PlayBack(v, front), last, id);
    }
  }

  /** The listing commit: old content, plus the first listing of every container that
      neither has a tombstone nor is known already, with pause states overridden by
      the queue; one Started per container really added. */
  lemma CommitClosedForm(v: View, alives: seq<Details>, id: Id)
    ensures var w := CommitList(v, alives);
            var added := id !in v.write && id !in v.tombs && FirstListed(alives, id).Some?;
            && (id in w.write <==> id in v.write || added)
            && (id in w.write ==>
                  var base := if id in v.write then v.write[id] else FirstListed(alives, id).value;
                  w.write[id] == if id in Pending(v.pauses) then base.(paused := Pending(v.pauses)[id]) else base)
            && Starts(w.log, id) == Starts(v.log, id) + (if added then 1 else 0)
            && w == View(w.write, v.read, false, [], [], w.log)
  {
    AddListedClosedForm(v, alives, id);
    PlayBackClosedForm(AddListed(v, alives), v.pauses, id);
  }

  lemma AddListedTouches(v: View, alives: seq<Details>)
    ensures SameButWriteAndLog(v, AddListed(v, alives))
  {
    AddListedClosedForm(v, alives, "");
  }

  /** The gate sections, by ID: a death buries its ID while a listing is in progress, and
      forgets its pause state in any case; a pause state change replaces what was queued
      for its ID while a listing is in progress. Neither does anything else. */
  lemma GateMeaning(v: View, id: Id, paused: bool)
    requires Distinct(v.pauses)
    ensures var w := GateExited(v, id);
            && (forall x :: x in w.tombs <==> x in v.tombs || (v.listing && x == id))
            && Distinct(w.pauses) && Pending(w.pauses) == Pending(v.pauses) - {id}
            && w == v.(tombs := w.tombs, pauses := w.pauses)
    ensures var w := GatePaused(v, id, paused);
            && Distinct(w.pauses)
            && Pending(w.pauses) == (if v.listing then Pending(v.pauses)[id := paused] else Pending(v.pauses))
            && w == v.(pauses := w.pauses)
  {
    hide PauseQueue.Added, PauseQueue.Removed, Distinct, Pending;
    RemovedMeaning(v.pauses, id);
    AddedMeaning(v.pauses, id, paused);
  }

  /** Playing back the compacted queue of a window sets every known container to its
      last pause state since its last death, and touches no other container. */
  lemma PlayBackOfWindow(v: View, ops: seq<GateOp>, id: Id)
    requires id in v.write
    ensures id in PlayBack(v, QueueAfter(ops)).write
    ensures PlayBack(v, QueueAfter(ops)).write[id] ==
            match LastSinceDeath(ops, id) {
              case Some(paused) => v.write[id].(paused := paused)
              case None => v.write[id]
            }
  {
    CompactionKeepsMeaning(ops, id);
    PlayBackClosedForm(v, QueueAfter(ops), id);
  }

  /** Nor does it depend on the order in which swap-removal left the queue. */
  lemma PlayBackIgnoresOrder(v: View, q: seq<PauseState>, r: seq<PauseState>)
    requires Distinct(q) && Distinct(r) && multiset(q) == multiset(r)
    ensures PlayBack(v, q).write == PlayBack(v, r).write
  {
    OrderIrrelevant(q, r);
    forall id ensures id in PlayBack(v, q).write <==> id in PlayBack(v, r).write {
      PlayBackClosedForm(v, q, id);
      PlayBackClosedForm(v, r, id);
    }
    forall id | id in PlayBack(v, q).write ensures PlayBack(v, q).write[id] == PlayBack(v, r).write[id] {
      PlayBackClosedForm(v, q, id);
      PlayBackClosedForm(v, r, id);
    }
  }

  // ---- Commits to whichever portfolio, step by step ----

  lemma ThroughBack(v: View, t: Target, w: View)
    requires SameButWriteAndLog(Through(v, t), w) && (t.Old? ==> v.read.Still?)
    ensures Through(Back(v, t, w), TargetBack(t, w)) == w
    ensures Back(v, t, Through(v, t)) == v && TargetBack(t, Through(v, t)) == t
    ensures SameButWriteAndLog(v, Back(v, t, w)) || t.Old?
    ensures Back(v, t, w).tombs == v.tombs && Back(v, t, w).pauses == v.pauses && Back(v, t, w).listing == v.listing
  {
  }

  lemma BackTwice(v: View, t: Target, w: View, x: View)
    requires t.Old? ==> v.read.Still?
    requires SameButWriteAndLog(Through(v, t), w) && SameButWriteAndLog(w, x)
    ensures Back(Back(v, t, w), TargetBack(t, w), x) == Back(v, t, x)
    ensures TargetBack(TargetBack(t, w), x) == TargetBack(t, x)
  {
  }

  lemma AddsLast(v: View, listed: seq<Details>)
    requires listed != []
    ensures var w := AddListed(v, listed[..|listed| - 1]);
            var last := listed[|listed| - 1];
            AddListed(v, listed) == if last.id in w.tombs then w else AddContainer(w, last)
  {
  }

  lemma OneAdded(w: View, c: Details)
    ensures SameButWriteAndLog(w, w) && SameButWriteAndLog(w, AddContainer(w, c))
  {
  }

  lemma OnePlayed(w: View, p: PauseState)
    ensures SameButWriteAndLog(w, ChangePaused(w, p.id, p.paused))
  {
  }

  lemma NothingAdded(v: View, t: Target)
    requires t.Old? ==> v.read.Still?
    ensures Back(v, t, AddListed(Through(v, t), [])) == v && TargetBack(t, AddListed(Through(v, t), [])) == t
  {
    ThroughBack(v, t, Through(v, t));
  }

  lemma NothingPlayed(v: View, t: Target)
    requires t.Old? ==> v.read.Still?
    ensures Back(v, t, PlayBack(Through(v, t), [])) == v && TargetBack(t, PlayBack(Through(v, t), [])) == t
  {
    ThroughBack(v, t, Through(v, t));
  }

  /** Adding the last container of a list to what the others have made of the portfolio. */
  lemma AddsNext(v: View, t: Target, listed: seq<Details>)
    requires listed != [] && (t.Old? ==> v.read.Still?)
    ensures var last := listed[|listed| - 1];
            var w := AddListed(Through(v, t), listed[..|listed| - 1]);
            var x := AddListed(Through(v, t), listed);
            && Back(v, t, w).tombs == v.tombs == w.tombs
            && (last.id in v.tombs ==> x == w)
            && (last.id !in v.tombs ==>
                  var y := AddContainer(Through(Back(v, t, w), TargetBack(t, w)), last);
                  Back(Back(v, t, w), TargetBack(t, w), y) == Back(v, t, x)
                  && TargetBack(TargetBack(t, w), y) == TargetBack(t, x))
  {
    hide AddListed, AddContainer, Through, Back, TargetBack, SameButWriteAndLog;
    var w := AddListed(Through(v, t), listed[..|listed| - 1]);
    AddListedTouches(Through(v, t), listed[..|listed| - 1]);
    AddsLast(Through(v, t), listed);
    ThroughBack(v, t, w);
    OneAdded(w, listed[|listed| - 1]);
    BackTwice(v, t, w, AddContainer(w, listed[|listed| - 1]));
    SameTombs(v, t, w);
  }

  lemma SameTombs(v: View, t: Target, w: View)
    requires SameButWriteAndLog(Through(v, t), w)
    ensures w.tombs == v.tombs && w.pauses == v.pauses
  {
  }

  lemma PlaysLast(v: View, pauses: seq<PauseState>)
    requires pauses != []
    ensures var last := pauses[|pauses| - 1];
            PlayBack(v, pauses) == ChangePaused(PlayBack(v, pauses[..|pauses| - 1]), last.id, last.paused)
  {
  }

  /** Playing back the last one of a queue. */
  lemma PlaysNext(v: View, t: Target, pauses: seq<PauseState>)
    requires pauses != [] && (t.Old? ==> v.read.Still?)
    ensures var last := pauses[|pauses| - 1];
            var w := PlayBack(Through(v, t), pauses[..|pauses| - 1]);
            var y := ChangePaused(Through(Back(v, t, w), TargetBack(t, w)), last.id, last.paused);
            && Back(Back(v, t, w), TargetBack(t, w), y) == Back(v, t, PlayBack(Through(v, t), pauses))
            && TargetBack(TargetBack(t, w), y) == TargetBack(t, PlayBack(Through(v, t), pauses))
  {
    hide PlayBack, ChangePaused, Through, Back, TargetBack, SameButWriteAndLog;
    var w := PlayBack(Through(v, t), pauses[..|pauses| - 1]);
    PlayBackTouches(Through(v, t), pauses[..|pauses| - 1]);
    PlaysLast(Through(v, t), pauses);
    ThroughBack(v, t, w);
    OnePlayed(w, pauses[|pauses| - 1]);
    BackTwice(v, t, w, PlayBack(Through(v, t), pauses));
  }

  lemma PlayBackTouches(v: View, pauses: seq<PauseState>)
    ensures SameButWriteAndLog(v, PlayBack(v, pauses))
  {
    PlayBackClosedForm(v, pauses, "");
  }

  /** Adding and then playing back, each to whichever portfolio, is both to that portfolio. */
  lemma OneAfterTheOther(v: View, t: Target, alives: seq<Details>, pauses: seq<PauseState>)
    requires t.Old? ==> v.read.Still?
    ensures var w := AddListed(Through(v, t), alives);
            var x := PlayBack(w, pauses);
            && Back(v, t, w).pauses == v.pauses
            && PlayBack(Through(Back(v, t, w), TargetBack(t, w)), pauses) == x
            && Back(Back(v, t, w), TargetBack(t, w), x) == Back(v, t, x)
            && TargetBack(TargetBack(t, w), x) == TargetBack(t, x)
  {
    hide AddListed, PlayBack, Through, Back, TargetBack, SameButWriteAndLog;
    var w := AddListed(Through(v, t), alives);
    AddListedTouches(Through(v, t), alives);
    PlayBackTouches(w, pauses);
    ThroughBack(v, t, w);
    BackTwice(v, t, w, PlayBack(w, pauses));
  }

  lemma NoneAdded(v: View, t: Target)
    requires t.Old? ==> v.read.Still?
    ensures Through(v, t).tombs == v.tombs
    ensures Back(v, t, Through(v, t)) == v && TargetBack(t, Through(v, t)) == t
  {
  }

  // ---- All sections, one after the other ----

  /** What the sections of the watcher do, to the view and to the portfolio that a commit has
      got hold of; the latter may be any, as long as no commit has got hold of one. */
  datatype Step =
    | BeginsAttempt
    | Adds(c: Details)
    | GatesDeath(id: Id)
    | Removes(id: Id)
    | GatesPause(id: Id, paused: bool)
    | Changes(id: Id, paused: bool)
    | BeginsListing
    | GetsHold
    | AddsListed(c: Details)
    | PlaysBack(id: Id, paused: bool)
    | Releases
    | Publishes
    | Nothing

  function Stepped(v: View, t: Target, step: Step): (View, Target) {
    match step
    case BeginsAttempt => (BeginAttempt(v), Overtaken(v, t))
    case Adds(c) => (AddContainer(v, c), t)
    case GatesDeath(id) => (GateExited(v, id), t)
    case Removes(id) => (RemoveContainer(v, id), t)
    case GatesPause(id, paused) => (GatePaused(v, id, paused), t)
    case Changes(id, paused) => (ChangePaused(v, id, paused), t)
    case BeginsListing => (BeginList(v), t)
    case GetsHold => (v, Live)
    case AddsListed(c) =>
      var u := Through(v, t);
      var w := if c.id in u.tombs then u else AddContainer(u, c);
      (Back(v, t, w), TargetBack(t, w))
    case PlaysBack(id, paused) =>
      var w := ChangePaused(Through(v, t), id, paused);
      (Back(v, t, w), TargetBack(t, w))
    case Releases => (v.(tombs := [], pauses := [], listing := false), t)
    case Publishes => (Publish(v), Unseen(v, t))
    case Nothing => (v, t)
  }

  function After(v: View, t: Target, steps: seq<Step>): (View, Target) {
    if steps == [] then (v, t)
    else
      var (w, u) := After(v, t, steps[..|steps| - 1]);
      Stepped(w, u, steps[|steps| - 1])
  }

  lemma AddingListed(v: View, t: Target, c: Details)
    requires t.Old? ==> v.read.Still?
    ensures Stepped(v, t, AddsListed(c)) ==
            if c.id in v.tombs then (v, t)
            else var w := AddContainer(Through(v, t), c); (Back(v, t, w), TargetBack(t, w))
  {
    NoneAdded(v, t);
  }

  lemma GettingHold(v: View, t: Target)
    ensures Stepped(v, t, GetsHold) == (v, Live)
  {
  }

  lemma AfterNone(v: View, t: Target, steps: seq<Step>)
    ensures After(v, t, steps[..0]) == (v, t)
  {
  }

  lemma AfterNext(v: View, t: Target, steps: seq<Step>, i: nat)
    requires i < |steps|
    ensures var (w, u) := After(v, t, steps[..i]); After(v, t, steps[..i + 1]) == Stepped(w, u, steps[i])
  {
    assert steps[..i + 1][..i] == steps[..i];
  }

  // ---- Event sourcing ----

  /** What a subscriber makes of one notification. */
  function Heard(m: map<Id, Details>, n: Note): map<Id, Details> {
    var id := n.container.id;
    match n.kind
    case Started => m[id := n.container]
    case Exited => m - {id}
    case Paused => if id in m then m[id := m[id].(paused := true)] else m
    case Unpaused => if id in m then m[id := m[id].(paused := false)] else m
  }

  /** The notification fits what the subscriber already knows. */
  ghost predicate Fitting(m: map<Id, Details>, n: Note) {
    var id := n.container.id;
    if n.kind == Started then id !in m
    else if n.kind == Exited then id in m && m[id] == n.container
    else id in m && n.container == m[id].(paused := n.kind == Paused)
  }

  function HeardAll(log: seq<Note>): map<Id, Details> {
    if log == [] then map[]
    else Heard(HeardAll(log[..|log| - 1]), log[|log| - 1])
  }

  ghost predicate AllFitting(log: seq<Note>) {
    log == [] ||
    (AllFitting(log[..|log| - 1]) && Fitting(HeardAll(log[..|log| - 1]), log[|log| - 1]))
  }

  /** The notifications of this attempt, replayed from nothing, give the write portfolio. */
  ghost predicate Sourced(v: View) {
    AllFitting(v.log) && HeardAll(v.log) == v.write && Keyed(v.write)
  }

  lemma HeardMore(log: seq<Note>, n: Note)
    ensures HeardAll(log + [n]) == Heard(HeardAll(log), n)
    ensures AllFitting(log + [n]) <==> AllFitting(log) && Fitting(HeardAll(log), n)
  {
    assert (log + [n])[..|log|] == log;
  }

  lemma AddKeepsSourced(v: View, c: Details)
    requires Sourced(v)
    ensures Sourced(AddContainer(v, c))
  {
    HeardMore(v.log, Note(Started, c));
  }

  lemma RemoveKeepsSourced(v: View, id: Id)
    requires Sourced(v)
    ensures Sourced(RemoveContainer(v, id))
  {
    if id in v.write { HeardMore(v.log, Note(Exited, v.write[id])); }
  }

  lemma ChangeKeepsSourced(v: View, id: Id, paused: bool)
    requires Sourced(v)
    ensures Sourced(ChangePaused(v, id, paused))
  {
    if id in v.write {
      HeardMore(v.log, Note(if paused then Paused else Unpaused, v.write[id].(paused := paused)));
    }
  }

  lemma {:induction false} AddListedKeepsSourced(v: View, alives: seq<Details>)
    requires Sourced(v)
    ensures Sourced(AddListed(v, alives))
  {
    if alives != [] {
      AddListedKeepsSourced(v, alives[..|alives| - 1]);
      AddKeepsSourced(AddListed(v, alives[..|alives| - 1]), alives[|alives| - 1]);
    }
  }

  lemma {:induction false} PlayBackKeepsSourced(v: View, pauses: seq<PauseState>)
    requires Sourced(v)
    ensures Sourced(PlayBack(v, pauses))
  {
    if pauses != [] {
      var last := pauses[|pauses| - 1];
      PlayBackKeepsSourced(v, pauses[..|pauses| - 1]);
      ChangeKeepsSourced(PlayBack(v, pauses[..|pauses| - 1]), last.id, last.paused);
    }
  }

  lemma CommitKeepsSourced(v: View, alives: seq<Details>)
    requires Sourced(v)
    ensures Sourced(CommitList(v, alives))
  {
    AddListedKeepsSourced(v, alives);
    PlayBackKeepsSourced(AddListed(v, alives), v.pauses);
  }

  // ---- Make before break ----

  /** Readers see the portfolio being written, or a non-empty older one. */
  ghost predicate NeverBlank(v: View) {
    v.read.Still? ==> v.read.content != map[]
  }
}
