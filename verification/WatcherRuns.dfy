/** Any sequence of sections on the watcher object, also with a commit among them that goes
    on writing to a portfolio which has been replaced. */
module WatcherRuns {
  import opened Containers
  import opened Index
  import opened Store
  import opened WatcherObjects
  import Catalog
  import K = KnownPortfolios
  import W = WatcherModel

  // Under another project's name a container is not found.

  function DeathStep(names: Names, id: Id, projectname: string): W.Step {
    if Leads(names, id, projectname) then W.Removes(id) else W.Nothing
  }

  function PauseStep(names: Names, id: Id, projectname: string, paused: bool): W.Step {
    if Leads(names, id, projectname) then W.Changes(id, paused) else W.Nothing
  }

  datatype Section =
    | Attempt
    | Birth(cntr: Container)
    | DeathAtGate(id: Id)
    | Death(id: Id, projectname: string)
    | PauseAtGate(id: Id, paused: bool)
    | PauseChange(id: Id, projectname: string, paused: bool)
    | ListStart
    | GetHold
    | AddListed(alive: Container)
    | PlayBack(id: Id, paused: bool)
    | Release
    | Publication
  {
    /** Containers go by the naming, and no ID that is asked for is another container's name. */
    ghost predicate Allowed(names: Names)
      reads if Birth? then {cntr} else if AddListed? then {alive} else {}
    {
      match this
      case Birth(c) => Fits(c.Info(), names)
      case AddListed(c) => Fits(c.Info(), names)
      case Death(id, _) => Unmistakable(names, id)
      case PauseChange(id, _, _) => Unmistakable(names, id)
      case PlayBack(id, _) => Unmistakable(names, id)
      case _ => true
    }

    ghost function Abstract(names: Names): W.Step
      reads if Birth? then {cntr} else if AddListed? then {alive} else {}
    {
      match this
      case Attempt => W.BeginsAttempt
      case Birth(c) => W.Adds(c.Info())
      case DeathAtGate(id) => W.GatesDeath(id)
      case Death(id, projectname) => DeathStep(names, id, projectname)
      case PauseAtGate(id, paused) => W.GatesPause(id, paused)
      case PauseChange(id, projectname, paused) => PauseStep(names, id, projectname, paused)
      case ListStart => W.BeginsListing
      case GetHold => W.GetsHold
      case AddListed(c) => W.AddsListed(c.Info())
      case PlayBack(id, paused) => W.PlaysBack(id, paused)
      case Release => W.Releases
      case Publication => W.Publishes
    }
  }

  // ---- The event thread, whatever portfolio a commit has got hold of meanwhile ----

  method Births(ww: Watcher, ghost held: Portfolio, cntr: Container)
    requires ww.Valid() && ww.Holds(held) && Fits(cntr.Info(), ww.names)
    modifies ww`log, ww.writeportfolio, ww.writeportfolio.projects.Values, ww.writeportfolio.Slots()
    ensures ww.Valid() && ww.Holds(held)
    ensures (ww.View(), ww.Aim(held)) == W.Stepped(old(ww.View()), old(ww.Aim(held)), W.Adds(cntr.Info()))
    ensures forall o | o in ww.Own(held) :: o in old(ww.Own(held)) || fresh(o)
  {
    hide Watcher.Valid, Watcher.View, Watcher.Holds, Watcher.Aim, Watcher.Own, Watcher.Apart, Watcher.Grown;
    hide Portfolio.Slots, Portfolio.Model, K.Fine, Catalog.Added;
    ww.Bystanders(held);
    ww.AddAndNotify(ww.writeportfolio, cntr);
    ww.FreshGrown(ww.writeportfolio);
    if ww.readportfolio != ww.writeportfolio { ww.UntouchedGrown(ww.readportfolio); }
    if held != ww.writeportfolio {
      ww.UntouchedGrown(held);
      ww.LooksOn(held);
    }
    ww.OwnGrown(held);
  }

  method Dies(ww: Watcher, ghost held: Portfolio, id: Id, projectname: string)
    requires ww.Valid() && ww.Holds(held) && Unmistakable(ww.names, id)
    modifies ww`log, ww.writeportfolio, ww.writeportfolio.projects.Values, ww.writeportfolio.Slots()
    ensures ww.Valid() && ww.Holds(held)
    ensures (ww.View(), ww.Aim(held)) ==
            W.Stepped(old(ww.View()), old(ww.Aim(held)), DeathStep(ww.names, id, projectname))
    ensures forall o | o in ww.Own(held) :: o in old(ww.Own(held)) || fresh(o)
  {
    hide Watcher.Valid, Watcher.View, Watcher.Holds, Watcher.Aim, Watcher.Own, Watcher.Apart, Watcher.Grown;
    hide Portfolio.Slots, Portfolio.Model, K.Fine, Catalog.Added;
    ww.Bystanders(held);
    ww.RemoveAndNotify(ww.writeportfolio, id, projectname);
    ww.FreshGrown(ww.writeportfolio);
    if ww.readportfolio != ww.writeportfolio { ww.UntouchedGrown(ww.readportfolio); }
    if held != ww.writeportfolio {
      ww.UntouchedGrown(held);
      ww.LooksOn(held);
    }
    ww.OwnGrown(held);
  }

  method Changes(ww: Watcher, ghost held: Portfolio, id: Id, projectname: string, paused: bool)
    requires ww.Valid() && ww.Holds(held) && Unmistakable(ww.names, id)
    modifies ww`log, ww.writeportfolio.projects.Values, ww.writeportfolio.Slots()
    ensures ww.Valid() && ww.Holds(held)
    ensures (ww.View(), ww.Aim(held)) ==
            W.Stepped(old(ww.View()), old(ww.Aim(held)), PauseStep(ww.names, id, projectname, paused))
    ensures forall o | o in ww.Own(held) :: o in old(ww.Own(held)) || fresh(o)
  {
    hide Watcher.Valid, Watcher.View, Watcher.Holds, Watcher.Aim, Watcher.Own, Watcher.Apart, Watcher.Grown;
    hide Portfolio.Slots, Portfolio.Model, K.Fine, Catalog.Added;
    ww.Bystanders(held);
    ww.PauseAndNotify(ww.writeportfolio, id, projectname, paused);
    ww.SameGrown(ww.writeportfolio);
    if ww.readportfolio != ww.writeportfolio { ww.UntouchedGrown(ww.readportfolio); }
    if held != ww.writeportfolio {
      ww.UntouchedGrown(held);
      ww.LooksOn(held);
    }
    ww.OwnGrown(held);
  }

  // ---- The gate ----

  method GatesDeath(ww: Watcher, ghost held: Portfolio, id: Id)
    requires ww.Valid() && ww.Holds(held)
    modifies ww`bluenorwegians, ww.pauses
    ensures ww.Valid() && ww.Holds(held)
    ensures (ww.View(), ww.Aim(held)) == W.Stepped(old(ww.View()), old(ww.Aim(held)), W.GatesDeath(id))
    ensures forall o | o in ww.Own(held) :: o in old(ww.Own(held)) || fresh(o)
  {
    hide Watcher.Valid, Watcher.View, Watcher.Holds, Watcher.Aim, Watcher.Own, Watcher.Apart, Watcher.Grown;
    hide Portfolio.Slots, Portfolio.Model, K.Fine, Catalog.Added;
    ww.GateExited(id);
    ww.UntouchedGrown(ww.readportfolio);
    ww.UntouchedGrown(ww.writeportfolio);
    ww.UntouchedGrown(held);
    ww.LooksOn(held);
    ww.OwnGrown(held);
  }

  method GatesPause(ww: Watcher, ghost held: Portfolio, id: Id, paused: bool)
    requires ww.Valid() && ww.Holds(held)
    modifies ww.pauses
    ensures ww.Valid() && ww.Holds(held)
    ensures (ww.View(), ww.Aim(held)) == W.Stepped(old(ww.View()), old(ww.Aim(held)), W.GatesPause(id, paused))
    ensures forall o | o in ww.Own(held) :: o in old(ww.Own(held)) || fresh(o)
  {
    hide Watcher.Valid, Watcher.View, Watcher.Holds, Watcher.Aim, Watcher.Own, Watcher.Apart, Watcher.Grown;
    hide Portfolio.Slots, Portfolio.Model, K.Fine, Catalog.Added;
    var _ := ww.GatePaused(id, paused);
    ww.UntouchedGrown(ww.readportfolio);
    ww.UntouchedGrown(ww.writeportfolio);
    ww.UntouchedGrown(held);
    ww.LooksOn(held);
    ww.OwnGrown(held);
  }

  method BeginsListing(ww: Watcher, ghost held: Portfolio)
    requires ww.Valid() && ww.Holds(held)
    modifies ww`listinprogress
    ensures ww.Valid() && ww.Holds(held)
    ensures (ww.View(), ww.Aim(held)) == W.Stepped(old(ww.View()), old(ww.Aim(held)), W.BeginsListing)
    ensures forall o | o in ww.Own(held) :: o in old(ww.Own(held)) || fresh(o)
  {
    hide Watcher.Valid, Watcher.View, Watcher.Holds, Watcher.Aim, Watcher.Own, Watcher.Apart, Watcher.Grown;
    hide Portfolio.Slots, Portfolio.Model, K.Fine, Catalog.Added;
    ww.ListBegin();
    ww.UntouchedGrown(ww.readportfolio);
    ww.UntouchedGrown(ww.writeportfolio);
    ww.UntouchedGrown(held);
    ww.LooksOn(held);
    ww.OwnGrown(held);
  }

  method Releases(ww: Watcher, ghost held: Portfolio)
    requires ww.Valid() && ww.Holds(held)
    modifies ww`bluenorwegians, ww`pauses, ww`listinprogress
    ensures ww.Valid() && ww.Holds(held)
    ensures (ww.View(), ww.Aim(held)) == W.Stepped(old(ww.View()), old(ww.Aim(held)), W.Releases)
    ensures forall o | o in ww.Own(held) :: o in old(ww.Own(held)) || fresh(o)
  {
    hide Watcher.Valid, Watcher.View, Watcher.Holds, Watcher.Aim, Watcher.Own, Watcher.Apart, Watcher.Grown;
    hide Portfolio.Slots, Portfolio.Model, K.Fine, Catalog.Added;
    ww.ClearListing();
    ww.UntouchedGrown(ww.readportfolio);
    ww.UntouchedGrown(ww.writeportfolio);
    ww.UntouchedGrown(held);
    ww.LooksOn(held);
    ww.OwnGrown(held);
  }

  // ---- The commit ----

  method AddsListed(ww: Watcher, held: Portfolio, alive: Container)
    requires ww.Valid() && ww.Holds(held) && Fits(alive.Info(), ww.names)
    modifies ww`log, held, held.projects.Values, held.Slots()
    ensures ww.Valid() && ww.Holds(held)
    ensures (ww.View(), ww.Aim(held)) == W.Stepped(old(ww.View()), old(ww.Aim(held)), W.AddsListed(alive.Info()))
    ensures forall o | o in ww.Own(held) :: o in old(ww.Own(held)) || fresh(o)
  {
    hide Watcher.Valid, Watcher.View, Watcher.Holds, Watcher.Aim, Watcher.Own, Watcher.Apart, Watcher.Grown;
    hide Portfolio.Slots, Portfolio.Model, K.Fine, Catalog.Added;
    hide W.Through, W.Back, W.TargetBack, W.AddContainer, W.Stepped, Fits;
    ww.OldIsStill(held);
    W.AddingListed(ww.View(), ww.Aim(held), alive.Info());
    ww.OutOfReach(held);
    ww.AddUnlessDead(held, alive);
    ww.FreshGrown(held);
    if ww.readportfolio != held { ww.UntouchedGrown(ww.readportfolio); }
    if ww.writeportfolio != held { ww.UntouchedGrown(ww.writeportfolio); }
    ww.OwnGrown(held);
  }

  method PlaysBack(ww: Watcher, held: Portfolio, id: Id, paused: bool)
    requires ww.Valid() && ww.Holds(held) && Unmistakable(ww.names, id)
    modifies ww`log, held.projects.Values, held.Slots()
    ensures ww.Valid() && ww.Holds(held)
    ensures (ww.View(), ww.Aim(held)) == W.Stepped(old(ww.View()), old(ww.Aim(held)), W.PlaysBack(id, paused))
    ensures forall o | o in ww.Own(held) :: o in old(ww.Own(held)) || fresh(o)
  {
    hide Watcher.Valid, Watcher.View, Watcher.Holds, Watcher.Aim, Watcher.Own, Watcher.Apart, Watcher.Grown;
    hide Portfolio.Slots, Portfolio.Model, K.Fine, Catalog.Added;
    hide W.Through, W.Back, W.TargetBack, W.ChangePaused;
    ww.HoldsFine(held);
    ww.OutOfReach(held);
    ww.PauseAndNotify(held, id, PROJECT_UNKNOWN, paused);
    ww.SameGrown(held);
    if ww.readportfolio != held { ww.UntouchedGrown(ww.readportfolio); }
    if ww.writeportfolio != held { ww.UntouchedGrown(ww.writeportfolio); }
    ww.OwnGrown(held);
  }

  // ---- Whose portfolio it is ----

  method BeginsAttempt(ww: Watcher, ghost held: Portfolio)
    requires ww.Valid() && ww.Holds(held)
    modifies ww`readportfolio, ww`writeportfolio, ww`log
    ensures ww.Valid() && ww.Holds(held)
    ensures (ww.View(), ww.Aim(held)) == W.Stepped(old(ww.View()), old(ww.Aim(held)), W.BeginsAttempt)
    ensures forall o | o in ww.Own(held) :: o in old(ww.Own(held)) || fresh(o)
  {
    hide Watcher.Valid, Watcher.View, Watcher.Holds, Watcher.Aim, Watcher.Own, Watcher.Apart, Watcher.NewWrite;
    hide Portfolio.Slots, Portfolio.Model, K.Fine, Catalog.Added;
    ww.BeginAttempt(held);
    ww.OwnSwapped(held);
  }

  method Publishes(ww: Watcher, ghost held: Portfolio)
    requires ww.Valid() && ww.Holds(held)
    modifies ww`readportfolio
    ensures ww.Valid() && ww.Holds(held)
    ensures (ww.View(), ww.Aim(held)) == W.Stepped(old(ww.View()), old(ww.Aim(held)), W.Publishes)
    ensures forall o | o in ww.Own(held) :: o in old(ww.Own(held)) || fresh(o)
  {
    hide Watcher.Valid, Watcher.View, Watcher.Holds, Watcher.Aim, Watcher.Own, Watcher.Apart, Watcher.NewWrite;
    hide Portfolio.Slots, Portfolio.Model, K.Fine, Catalog.Added;
    ww.Publish(held);
    ww.OwnSwapped(held);
  }

  // ---- Any sequence of sections ----

  method PerformOne(ww: Watcher, held: Portfolio, section: Section) returns (hold: Portfolio)
    requires ww.Valid() && ww.Holds(held) && section.Allowed(ww.names)
    modifies ww.Own(held)
    ensures ww.Valid() && ww.Holds(hold)
    ensures (ww.View(), ww.Aim(hold)) ==
            W.Stepped(old(ww.View()), old(ww.Aim(held)), old(section.Abstract(ww.names)))
    ensures forall o | o in ww.Own(hold) :: o in old(ww.Own(held)) || fresh(o)
  {
    hide Watcher.Valid, Watcher.View, Watcher.Holds, Watcher.Aim, Watcher.Apart, Portfolio.Slots, K.Fine;
    hide Fits, Unmistakable, DeathStep, PauseStep, W.Stepped;
    hold := held;
    match section
    case Attempt => BeginsAttempt(ww, held);
    case Birth(cntr) => Births(ww, held, cntr);
    case DeathAtGate(id) => GatesDeath(ww, held, id);
    case Death(id, projectname) => Dies(ww, held, id, projectname);
    case PauseAtGate(id, paused) => GatesPause(ww, held, id, paused);
    case PauseChange(id, projectname, paused) => Changes(ww, held, id, projectname, paused);
    case ListStart => BeginsListing(ww, held);
    case GetHold =>
      ww.WritesLive();
      ww.HoldsFine(held);
      W.GettingHold(ww.View(), ww.Aim(held));
      hold := ww.writeportfolio;
    case AddListed(alive) => AddsListed(ww, held, alive);
    case PlayBack(id, paused) => PlaysBack(ww, held, id, paused);
    case Release => Releases(ww, held);
    case Publication => Publishes(ww, held);
  }

  /** Over any sequence of sections, with any interleaving of events, listing and new
      attempts among them, the view, and what a commit sees, are the fold of the step
      functions; and nothing is written to but what the watcher has, or has made. */
  method Perform(ww: Watcher, held: Portfolio, sections: seq<Section>, ghost steps: seq<W.Step>)
    returns (hold: Portfolio)
    requires ww.Valid() && ww.Holds(held) && |steps| == |sections|
    requires forall i | 0 <= i < |sections| ::
               sections[i].Allowed(ww.names) && steps[i] == sections[i].Abstract(ww.names)
    modifies ww.Own(held)
    ensures ww.Valid() && ww.Holds(hold)
    ensures (ww.View(), ww.Aim(hold)) == W.After(old(ww.View()), old(ww.Aim(held)), steps)
    ensures forall o | o in ww.Own(hold) :: o in old(ww.Own(held)) || fresh(o)
  {
    hide Watcher.Valid, Watcher.View, Watcher.Holds, Watcher.Aim, Watcher.Own, Watcher.Apart, Portfolio.Slots, K.Fine;
    hide Section.Allowed, Section.Abstract, W.Stepped, W.After;
    hold := held;
    ww.HoldsFine(held);
    ghost var v, t, own := ww.View(), ww.Aim(held), ww.Own(held);
    W.AfterNone(v, t, steps);
    for i := 0 to |sections|
      invariant ww.Valid() && ww.Holds(hold) && ww.Fine(hold)
      invariant (ww.View(), ww.Aim(hold)) == W.After(v, t, steps[..i])
      invariant forall o | o in ww.Own(hold) :: o in own || fresh(o)
      invariant forall j | i <= j < |sections| ::
                  sections[j].Allowed(ww.names) && steps[j] == sections[j].Abstract(ww.names)
    {
      W.AfterNext(v, t, steps, i);
      label here:
      ghost var had := hold;
      ww.OwnsNoContainer(hold);
      hold := PerformOne(ww, hold, sections[i]);
      ww.HoldsFine(hold);
      forall o | o in ww.Own(hold) ensures o in own || fresh(o) {
        if o !in own { assert o in old@here(ww.Own(had)) || !old@here(allocated(o)); }
      }
    }
    assert steps[..|sections|] == steps;
  }

  /** From the very beginning. */
  method PerformFromStart(names: Names, sections: seq<Section>, ghost steps: seq<W.Step>)
    returns (ww: Watcher, hold: Portfolio)
    requires |steps| == |sections|
    requires forall i | 0 <= i < |sections| :: sections[i].Allowed(names) && steps[i] == sections[i].Abstract(names)
    ensures fresh(ww) && ww.Valid() && ww.Holds(hold)
    ensures (ww.View(), ww.Aim(hold)) == W.After(W.NEW_VIEW, W.Live, steps)
  {
    hide Watcher.Valid, Watcher.View, Watcher.Holds, Watcher.Aim, Watcher.Apart, K.Fine;
    hide Section.Allowed, Section.Abstract, W.Stepped, W.After;
    ww := new Watcher(names);
    ww.WritesLive();
    hold := Perform(ww, ww.writeportfolio, sections, steps);
  }
}
