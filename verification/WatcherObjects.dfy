/** The watcher object. Each method is one uninterruptible section of watcher.go, or
    such sections in a row, and does to the object what the step function of
    WatcherModel does to its view. */
module WatcherObjects {
  import opened Containers
  import opened PauseQueue
  import opened Index
  import opened Store
  import Catalog
  import K = KnownPortfolios
  import W = WatcherModel

  class Watcher {
    var readportfolio: Portfolio
    var writeportfolio: Portfolio
    var listinprogress: bool
    var bluenorwegians: seq<Id>
    var pauses: PendingPauseStates
    ghost var log: seq<W.Note>
    ghost const names: Names

    ghost predicate Fine(pf: Portfolio)
      reads pf, pf.projects.Values, pf.Stored(), pf.Slots()
    {
      K.Fine(pf, names)
    }

    ghost function Known(pf: Portfolio): map<Id, Details>
      requires Fine(pf)
      reads pf, pf.projects.Values, pf.Stored(), pf.Slots()
    {
      K.Known(pf, names)
    }

    /** Two portfolios share neither projects nor backing arrays. */
    static ghost predicate Apart(p: Portfolio, q: Portfolio)
      reads p, q, p.projects.Values, q.projects.Values
    {
      p != q ==>
        forall n, k | n in p.projects && k in q.projects ::
          p.projects[n] != q.projects[k] && p.projects[n].slots != q.projects[k].slots
    }

    /** A portfolio that a commit may have got hold of: one of the two, or one that has been
        replaced. */
    ghost predicate Holds(pf: Portfolio)
      reads this, readportfolio, readportfolio.projects.Values, writeportfolio, writeportfolio.projects.Values,
            pf, pf.projects.Values, pf.Stored(), pf.Slots()
    {
      Fine(pf) && Apart(pf, readportfolio) && Apart(pf, writeportfolio)
    }

    ghost predicate Valid()
      reads this, readportfolio, readportfolio.projects.Values, readportfolio.Stored(), readportfolio.Slots(),
            writeportfolio, writeportfolio.projects.Values, writeportfolio.Stored(), writeportfolio.Slots()
    {
      Fine(readportfolio) && Fine(writeportfolio) && Apart(readportfolio, writeportfolio)
    }

    ghost function View(): W.View
      requires Valid()
      reads this, readportfolio, readportfolio.projects.Values, readportfolio.Stored(), readportfolio.Slots(),
            writeportfolio, writeportfolio.projects.Values, writeportfolio.Stored(), writeportfolio.Slots(), pauses
    {
      W.View(Known(writeportfolio),
             if readportfolio == writeportfolio then W.Shared else W.Still(Known(readportfolio)),
             listinprogress, bluenorwegians, pauses.states, log)
    }

    /** What the portfolio that a commit has got hold of is by now. */
    ghost function Aim(pf: Portfolio): W.Target
      requires Fine(pf)
      reads this, pf, pf.projects.Values, pf.Stored(), pf.Slots()
    {
      if pf == writeportfolio then W.Live else if pf == readportfolio then W.Old else W.Lost(Known(pf))
    }

    constructor (names: Names)
      ensures Valid() && View() == W.NEW_VIEW && this.names == names
      ensures readportfolio == writeportfolio && fresh(writeportfolio) && fresh(pauses)
      ensures fresh(writeportfolio.projects.Values) && fresh(writeportfolio.Slots())
    {
      hide K.Fine, K.Known, Catalog.Valid, Portfolio.Model, Portfolio.Valid, View, Valid;
      var queue := new PendingPauseStates();
      var pf := new Portfolio();
      label made:
      this.names := names;
      readportfolio := pf;
      writeportfolio := pf;
      listinprogress := false;
      bluenorwegians := [];
      pauses := queue;
      log := [];
      new;
      pf.SameModel@made();
      K.NewIsFine(pf, names);
      NewView();
    }

    lemma NewView()
      requires readportfolio == writeportfolio && Fine(writeportfolio)
      requires Known(writeportfolio) == map[]
      requires !listinprogress && bluenorwegians == [] && pauses.states == [] && log == []
      ensures Valid() && View() == W.NEW_VIEW
    {
      hide K.Fine, K.Known;
    }

    lemma HoldsFine(pf: Portfolio)
      requires Holds(pf)
      ensures Fine(pf)
    {
    }

    lemma Parts()
      requires Valid()
      ensures Fine(readportfolio) && Fine(writeportfolio) && Apart(readportfolio, writeportfolio)
      ensures Holds(writeportfolio) && Holds(readportfolio)
      ensures View().write == Known(writeportfolio) && View().Visible() == Known(readportfolio)
      ensures View().listing == listinprogress && (View().read.Shared? <==> readportfolio == writeportfolio)
    {
      hide K.Fine, K.Known;
    }

    lemma ViewFields()
      requires Valid()
      ensures View().log == log && View().tombs == bluenorwegians && View().pauses == pauses.states
      ensures View().listing == listinprogress
    {
    }

    // ---- What an update leaves alone ----

    twostate predicate Untouched(pf: Portfolio)
      reads pf, pf.projects.Values, pf.Slots()
    {
      unchanged(pf) && forall n | n in pf.projects :: unchanged(pf.projects[n]) && unchanged(pf.projects[n].slots)
    }

    twostate lemma SameKnown(pf: Portfolio)
      requires old(Fine(pf)) && Untouched(pf)
      requires forall c: Container | old(allocated(c)) :: c.Same()
      ensures Fine(pf) && Known(pf) == old(Known(pf)) && pf.Model() == old(pf.Model())
    {
      hide ById, AllFit, Catalog.Valid, Portfolio.Model, Portfolio.Valid;
      forall c | c in old(pf.Stored()) ensures unchanged(c) {
        assert c.Same();
      }
      forall a | a in old(pf.Slots()) ensures unchanged(a) {
        var n :| n in pf.projects && a == old(pf.projects[n].slots);
      }
      pf.SameModel();
    }

    twostate predicate FieldsKept()
      reads this, pauses
    {
      && readportfolio == old(readportfolio) && writeportfolio == old(writeportfolio)
      && listinprogress == old(listinprogress) && bluenorwegians == old(bluenorwegians)
      && pauses == old(pauses) && pauses.states == old(pauses.states)
    }

    /** Only this portfolio's content and the log have changed, if anything. */
    twostate predicate OnlyIn(pf: Portfolio)
      reads this, readportfolio, readportfolio.projects.Values, readportfolio.Slots(),
            writeportfolio, writeportfolio.projects.Values, writeportfolio.Slots(),
            pf, pf.projects.Values, pauses
    {
      && FieldsKept()
      && (forall n | n in pf.projects :: pf.projects[n] in old(pf.projects.Values) || fresh(pf.projects[n]))
      && (forall n | n in pf.projects :: pf.projects[n].slots in old(pf.Slots()) || fresh(pf.projects[n].slots))
      && (readportfolio != pf ==> Untouched(readportfolio))
      && (writeportfolio != pf ==> Untouched(writeportfolio))
    }

    twostate lemma StillApart(pf: Portfolio)
      requires old(Valid()) && old(Holds(pf)) && OnlyIn(pf)
      ensures Apart(pf, readportfolio) && Apart(pf, writeportfolio) && Apart(readportfolio, writeportfolio)
    {
      hide K.Fine;
    }

    /** What a commit has made of its portfolio shows in the view according to what that
        portfolio is by now. */
    twostate lemma Updated(pf: Portfolio)
      requires old(Valid()) && old(Holds(pf)) && OnlyIn(pf) && Fine(pf)
      requires forall c: Container | old(allocated(c)) :: c.Same()
      ensures Valid() && Holds(pf)
      ensures var seen := W.Through(old(View()), old(Aim(pf)));
              var w := seen.(write := Known(pf), log := log);
              && View() == W.Back(old(View()), old(Aim(pf)), w)
              && Aim(pf) == W.TargetBack(old(Aim(pf)), w)
              && seen.write == old(Known(pf)) && seen.tombs == bluenorwegians && seen.log == old(log)
    {
      hide K.Fine, K.Known, Untouched, Apart;
      StillApart(pf);
      if readportfolio != pf { SameKnown(readportfolio); }
      if writeportfolio != pf { SameKnown(writeportfolio); }
    }

    /** Writing to one portfolio touches nothing of another one. */
    lemma OutOfReach(pf: Portfolio)
      requires Holds(pf)
      ensures pf != readportfolio ==>
                forall n | n in readportfolio.projects ::
                  readportfolio.projects[n] !in pf.projects.Values && readportfolio.projects[n].slots !in pf.Slots()
      ensures pf != writeportfolio ==>
                forall n | n in writeportfolio.projects ::
                  writeportfolio.projects[n] !in pf.projects.Values && writeportfolio.projects[n].slots !in pf.Slots()
    {
      hide K.Fine;
    }

    static lemma OwnParts(pf: Portfolio)
      ensures forall n | n in pf.projects :: pf.projects[n] in pf.projects.Values && pf.projects[n].slots in pf.Slots()
    {
    }

    // ---- Notifications ----

    method Notify(kind: W.EventType, c: Container?)
      modifies this`log
      ensures log == if c == null then old(log) else old(log) + [W.Note(kind, c.Info())]
    {
      if c == null {
        return;
      }
      log := log + [W.Note(kind, c.Info())];
    }

    lemma SaidToo(v: W.View, t: W.Target, w: W.View, said: seq<W.Note>)
      requires W.SameButWriteAndLog(W.Through(v, t), w)
      ensures W.Back(v, t, w).(log := said) == W.Back(v, t, w.(log := said))
      ensures W.TargetBack(t, w.(log := said)) == W.TargetBack(t, w)
    {
    }

    twostate lemma OnlyLogged(pf: Portfolio)
      requires old(Valid()) && old(Holds(pf)) && FieldsKept()
      requires Untouched(readportfolio) && Untouched(writeportfolio) && Untouched(pf)
      requires forall c: Container | old(allocated(c)) :: c.Same()
      ensures Valid() && Holds(pf) && View() == old(View()).(log := log) && Aim(pf) == old(Aim(pf))
      ensures Known(pf) == old(Known(pf)) && pf.Model() == old(pf.Model())
    {
      hide K.Fine, K.Known, Portfolio.Slots, Portfolio.Model;
      SameKnown(readportfolio);
      SameKnown(writeportfolio);
      SameKnown(pf);
    }

    method Tell(pf: Portfolio, kind: W.EventType, c: Container?)
      requires Valid() && Holds(pf)
      modifies this`log
      ensures log == if c == null then old(log) else old(log) + [W.Note(kind, c.Info())]
      ensures Valid() && Holds(pf) && View() == old(View()).(log := log) && Aim(pf) == old(Aim(pf))
      ensures pf.Model() == old(pf.Model())
    {
      hide Valid, View, K.Fine, K.Known, Holds, Aim, Portfolio.Slots, Portfolio.Model;
      Notify(kind, c);
      OnlyLogged(pf);
    }

    // ---- Updates of a portfolio, with their notifications ----

    method PutInto(pf: Portfolio, cntr: Container) returns (added: bool)
      requires Valid() && Holds(pf) && Fits(cntr.Info(), names)
      modifies pf, pf.projects.Values, pf.Slots()
      ensures Fine(pf) && OnlyIn(pf) && log == old(log)
      ensures forall c: Container | old(allocated(c)) :: c.Same()
      ensures fresh(pf.projects.Values - old(pf.projects.Values)) && fresh(pf.Slots() - old(pf.Slots()))
      ensures added == (cntr.id !in old(Known(pf)))
      ensures Known(pf) == if added then old(Known(pf))[cntr.id := cntr.Info()] else old(Known(pf))
      ensures pf.Model() == Catalog.Added(old(pf.Model()), cntr.Info())
    {
      hide K.Fine, K.Known, Fits, Apart, Portfolio.Slots, Portfolio.Model, Catalog.Added;
      OutOfReach(pf);
      added := K.AddKnown(pf, names, cntr);
      OwnParts(pf);
    }

    /** Adding a container to the portfolio that somebody has got hold of. */
    method AddAndNotify(pf: Portfolio, cntr: Container)
      requires Valid() && Holds(pf) && Fits(cntr.Info(), names)
      modifies this`log, pf, pf.projects.Values, pf.Slots()
      ensures Valid() && Holds(pf)
      ensures fresh(pf.projects.Values - old(pf.projects.Values)) && fresh(pf.Slots() - old(pf.Slots()))
      ensures var w := W.AddContainer(W.Through(old(View()), old(Aim(pf))), cntr.Info());
              View() == W.Back(old(View()), old(Aim(pf)), w) && Aim(pf) == W.TargetBack(old(Aim(pf)), w)
      ensures pf.Model() == Catalog.Added(old(pf.Model()), cntr.Info())
    {
      hide Valid, View, Holds, K.Fine, K.Known, Fits, Aim, OnlyIn, Portfolio.Slots, W.Through, W.Back, W.TargetBack;
      hide Portfolio.Model, Catalog.Added;
      HoldsFine(pf);
      var added := PutInto(pf, cntr);
      Updated(pf);
      ghost var w := W.Through(old(View()), old(Aim(pf))).(write := Known(pf), log := log);
      if added {
        Tell(pf, W.Started, cntr);
      }
      SaidToo(old(View()), old(Aim(pf)), w, log);
    }

    method TakeFrom(pf: Portfolio, id: Id, projectname: string) returns (cntr: Container?)
      requires Valid() && Holds(pf) && Unmistakable(names, id)
      modifies pf, pf.projects.Values, pf.Slots()
      ensures Fine(pf) && OnlyIn(pf) && log == old(log)
      ensures forall c: Container | old(allocated(c)) :: c.Same()
      ensures fresh(pf.projects.Values - old(pf.projects.Values)) && fresh(pf.Slots() - old(pf.Slots()))
      ensures (Known(pf), K.Shown(cntr)) == K.RemovedIf(Leads(names, id, projectname), old(Known(pf)), id)
    {
      hide K.Fine, K.Known, K.RemovedIf, Apart, Unmistakable, Portfolio.Slots;
      OutOfReach(pf);
      cntr := K.RemoveKnown(pf, names, id, projectname);
      OwnParts(pf);
    }

    /** Removing one, with the project known or not; under another project's name it stays. */
    method RemoveAndNotify(pf: Portfolio, id: Id, projectname: string)
      requires Valid() && Holds(pf) && Unmistakable(names, id)
      modifies this`log, pf, pf.projects.Values, pf.Slots()
      ensures Valid() && Holds(pf)
      ensures fresh(pf.projects.Values - old(pf.projects.Values)) && fresh(pf.Slots() - old(pf.Slots()))
      ensures var v := W.Through(old(View()), old(Aim(pf)));
              var w := if Leads(names, id, projectname) then W.RemoveContainer(v, id) else v;
              View() == W.Back(old(View()), old(Aim(pf)), w) && Aim(pf) == W.TargetBack(old(Aim(pf)), w)
    {
      hide Valid, View, Holds, K.Fine, K.Known, Aim, OnlyIn, Portfolio.Slots, W.Through, W.Back, W.TargetBack;
      HoldsFine(pf);
      var cntr := TakeFrom(pf, id, projectname);
      Updated(pf);
      ghost var w := W.Through(old(View()), old(Aim(pf))).(write := Known(pf), log := log);
      Tell(pf, W.Exited, cntr);
      SaidToo(old(View()), old(Aim(pf)), w, log);
      assert id !in old(Known(pf)) ==> old(Known(pf)) - {id} == old(Known(pf));
    }

    method ChangeIn(pf: Portfolio, id: Id, projectname: string, paused: bool) returns (cntr: Container?)
      requires Valid() && Holds(pf) && Unmistakable(names, id)
      modifies pf.projects.Values, pf.Slots()
      ensures Fine(pf) && OnlyIn(pf) && log == old(log)
      ensures forall c: Container | old(allocated(c)) :: c.Same()
      ensures pf.projects == old(pf.projects) && pf.Slots() == old(pf.Slots())
      ensures (Known(pf), K.Shown(cntr)) == K.PausedIf(Leads(names, id, projectname), old(Known(pf)), id, paused)
    {
      hide K.Fine, K.Known, K.PausedIf, Apart, Unmistakable;
      OutOfReach(pf);
      cntr := K.PauseKnown(pf, names, id, projectname, paused);
    }

    /** Changing a pause state, with the project known or not; under another project's name
        nothing changes. */
    method PauseAndNotify(pf: Portfolio, id: Id, projectname: string, paused: bool)
      requires Valid() && Holds(pf) && Unmistakable(names, id)
      modifies this`log, pf.projects.Values, pf.Slots()
      ensures Valid() && Holds(pf)
      ensures pf.projects == old(pf.projects) && pf.Slots() == old(pf.Slots())
      ensures var v := W.Through(old(View()), old(Aim(pf)));
              var w := if Leads(names, id, projectname) then W.ChangePaused(v, id, paused) else v;
              View() == W.Back(old(View()), old(Aim(pf)), w) && Aim(pf) == W.TargetBack(old(Aim(pf)), w)
    {
      hide Valid, View, Holds, K.Fine, K.Known, Aim, OnlyIn, Portfolio.Slots, W.Through, W.Back, W.TargetBack;
      HoldsFine(pf);
      var cntr := ChangeIn(pf, id, projectname, paused);
      Updated(pf);
      ghost var w := W.Through(old(View()), old(Aim(pf))).(write := Known(pf), log := log);
      if paused {
        Tell(pf, W.Paused, cntr);
      } else {
        Tell(pf, W.Unpaused, cntr);
      }
      SaidToo(old(View()), old(Aim(pf)), w, log);
    }

    /** Nobody has replaced the write portfolio: what is done through it is done to the view. */
    lemma WritesLive()
      requires Valid()
      ensures Holds(writeportfolio) && Aim(writeportfolio) == W.Live
    {
      hide K.Fine, K.Known;
    }

    // ---- Handling events ----

    /** Handling a birth: nothing to add if the container is gone when inspected. */
    method Born(inspected: Container?)
      requires Valid() && (inspected != null ==> Fits(inspected.Info(), names))
      modifies this`log, writeportfolio, writeportfolio.projects.Values, writeportfolio.Slots()
      ensures Valid()
      ensures View() == if inspected == null then old(View()) else W.AddContainer(old(View()), inspected.Info())
      ensures fresh(writeportfolio.projects.Values - old(writeportfolio.projects.Values))
      ensures fresh(writeportfolio.Slots() - old(writeportfolio.Slots()))
    {
      hide Valid, View, Holds, Aim, Portfolio.Slots;
      if inspected != null {
        WritesLive();
        AddAndNotify(writeportfolio, inspected);
      }
    }

    /** The gated half of handling a death. */
    method GateExited(id: Id)
      requires Valid()
      modifies this`bluenorwegians, pauses
      ensures Valid() && View() == W.GateExited(old(View()), id)
    {
      hide Valid, View, Removed, Distinct, K.Fine, K.Known, Apart;
      Parts();
      ViewFields();
      if listinprogress {
        bluenorwegians := bluenorwegians + [id];
      }
      pauses.Remove(id);
      GateView();
    }

    /** The gated half of handling a pause state change, unless that is all of it. */
    method GatePaused(id: Id, paused: bool) returns (queued: bool)
      requires Valid()
      modifies pauses
      ensures Valid() && View() == W.GatePaused(old(View()), id, paused) && queued == listinprogress
    {
      hide Valid, View, PauseQueue.Added, Distinct, K.Fine, K.Known, Apart;
      Parts();
      ViewFields();
      queued := listinprogress;
      if listinprogress {
        pauses.Add(id, paused);
      }
      GateView();
    }

    /** The portfolios and who looks at them are as before. */
    twostate lemma GateView()
      requires old(Valid())
      requires readportfolio == old(readportfolio) && writeportfolio == old(writeportfolio)
      requires Untouched(readportfolio) && Untouched(writeportfolio)
      requires forall c: Container | old(allocated(c)) :: c.Same()
      ensures Valid()
      ensures View() == W.View(old(View()).write, old(View()).read, listinprogress, bluenorwegians, pauses.states, log)
    {
      hide K.Fine, K.Known, Portfolio.Slots;
      SameKnown(readportfolio);
      SameKnown(writeportfolio);
    }

    /** Handling a death with nothing in between. */
    method Demised(id: Id, projectname: string)
      requires Valid() && Unmistakable(names, id)
      modifies this`bluenorwegians, this`log, pauses,
               writeportfolio, writeportfolio.projects.Values, writeportfolio.Slots()
      ensures Valid()
      ensures var v := W.GateExited(old(View()), id);
              View() == if Leads(names, id, projectname) then W.RemoveContainer(v, id) else v
      ensures fresh(writeportfolio.projects.Values - old(writeportfolio.projects.Values))
      ensures fresh(writeportfolio.Slots() - old(writeportfolio.Slots()))
    {
      hide Valid, View, Holds, Aim, Portfolio.Slots;
      ghost var slots := writeportfolio.Slots();
      GateExited(id);
      WritesLive();
      label gated:
      RemoveAndNotify(writeportfolio, id, projectname);
      forall a | a in writeportfolio.Slots() ensures a in slots || fresh(a) {
        if a !in slots {
          assert a in writeportfolio.Slots() - old@gated(writeportfolio.Slots()) && !old@gated(allocated(a));
        }
      }
    }

    /** Handling a pause state change with nothing in between. */
    method Paused(id: Id, projectname: string, paused: bool)
      requires Valid() && Unmistakable(names, id)
      modifies this`log, pauses, writeportfolio.projects.Values, writeportfolio.Slots()
      ensures Valid()
      ensures View() == if old(listinprogress) then W.GatePaused(old(View()), id, paused)
                        else if Leads(names, id, projectname) then W.ChangePaused(old(View()), id, paused)
                        else old(View())
      ensures writeportfolio.projects == old(writeportfolio.projects)
      ensures writeportfolio.Slots() == old(writeportfolio.Slots())
    {
      hide Valid, View, Holds, Aim, Portfolio.Slots;
      ViewFields();
      var queued := GatePaused(id, paused);
      if queued {
        return;
      }
      WritesLive();
      PauseAndNotify(writeportfolio, id, projectname, paused);
    }

    // ---- Listing ----

    method ListBegin()
      requires Valid()
      modifies this`listinprogress
      ensures Valid() && View() == W.BeginList(old(View()))
    {
      hide Valid, View, K.Fine, K.Known, Apart;
      Parts();
      ViewFields();
      listinprogress := true;
      GateView();
    }

    lemma OldIsStill(pf: Portfolio)
      requires Valid() && Holds(pf)
      ensures Fine(pf) && (Aim(pf).Old? ==> View().read.Still?)
    {
      hide K.Fine, K.Known, Apart;
    }

    method AddUnlessDead(pf: Portfolio, alive: Container)
      requires Valid() && Holds(pf) && Fine(pf) && Fits(alive.Info(), names)
      modifies this`log, pf, pf.projects.Values, pf.Slots()
      ensures Valid() && Holds(pf) && Fine(pf)
      ensures fresh(pf.projects.Values - old(pf.projects.Values)) && fresh(pf.Slots() - old(pf.Slots()))
      ensures var v := W.Through(old(View()), old(Aim(pf)));
              var w := W.AddContainer(v, alive.Info());
              if alive.id in old(View()).tombs then View() == old(View()) && Aim(pf) == old(Aim(pf))
              else View() == W.Back(old(View()), old(Aim(pf)), w) && Aim(pf) == W.TargetBack(old(Aim(pf)), w)
      ensures pf.Model() == if alive.id in old(View()).tombs then old(pf.Model())
                            else Catalog.Added(old(pf.Model()), alive.Info())
      ensures forall c: Container | old(allocated(c)) :: c.Same()
    {
      hide Portfolio.Model, Catalog.Added;
      hide Valid, View, Holds, Aim, K.Fine, Fits, Portfolio.Slots, W.Through, W.Back, W.TargetBack, W.AddContainer;
      ViewFields();
      if alive.id !in bluenorwegians {
        AddAndNotify(pf, alive);
      }
      HoldsFine(pf);
    }

    /** This much of a list has been added. */
    ghost predicate Reached(pf: Portfolio, v: W.View, t: W.Target, m: Catalog.Projects, listed: seq<Details>)
      requires Valid() && Fine(pf)
      reads this, readportfolio, readportfolio.projects.Values, readportfolio.Stored(), readportfolio.Slots(),
            writeportfolio, writeportfolio.projects.Values, writeportfolio.Stored(), writeportfolio.Slots(),
            pauses, pf, pf.projects.Values, pf.Stored(), pf.Slots()
    {
      && View() == W.Back(v, t, W.AddListed(W.Through(v, t), listed))
      && Aim(pf) == W.TargetBack(t, W.AddListed(W.Through(v, t), listed))
      && pf.Model() == Catalog.AddedAll(m, v.tombs, listed)
    }

    method AddNext(pf: Portfolio, alive: Container, ghost v: W.View, ghost t: W.Target, ghost m: Catalog.Projects,
                   ghost listed: seq<Details>)
      requires Valid() && Holds(pf) && Fine(pf) && Fits(alive.Info(), names)
      requires (t.Old? ==> v.read.Still?) && Reached(pf, v, t, m, listed)
      modifies this`log, pf, pf.projects.Values, pf.Slots()
      ensures Valid() && Holds(pf) && Fine(pf) && Reached(pf, v, t, m, listed + [alive.Info()])
      ensures fresh(pf.projects.Values - old(pf.projects.Values)) && fresh(pf.Slots() - old(pf.Slots()))
      ensures forall c: Container | old(allocated(c)) :: c.Same()
    {
      hide Valid, View, Holds, Aim, K.Fine, Fits, Portfolio.Slots, Portfolio.Model, Catalog.Added, Catalog.AddedAll;
      hide W.Through, W.Back, W.TargetBack, W.AddListed, W.AddContainer;
      ghost var all := listed + [alive.Info()];
      assert all[..|all| - 1] == listed;
      W.AddsNext(v, t, all);
      Catalog.AddsLast(m, v.tombs, all);
      AddUnlessDead(pf, alive);
    }

    /** The first loop of a commit, whichever portfolio it has got hold of. */
    method AddAlives(pf: Portfolio, alives: seq<Container>)
      requires Valid() && Holds(pf) && forall c | c in alives :: Fits(c.Info(), names)
      modifies this`log, pf, pf.projects.Values, pf.Slots()
      ensures Valid() && Holds(pf)
      ensures fresh(pf.projects.Values - old(pf.projects.Values)) && fresh(pf.Slots() - old(pf.Slots()))
      ensures var w := W.AddListed(W.Through(old(View()), old(Aim(pf))), Views(alives));
              View() == W.Back(old(View()), old(Aim(pf)), w) && Aim(pf) == W.TargetBack(old(Aim(pf)), w)
      ensures pf.Model() == Catalog.AddedAll(old(pf.Model()), bluenorwegians, Views(alives))
    {
      hide Valid, View, Holds, Aim, K.Fine, Views, Fits, Portfolio.Slots, Portfolio.Model, Reached;
      hide W.Through, W.Back, W.TargetBack, W.AddListed, Catalog.AddedAll;
      ghost var infos := Views(alives);
      ghost var projects, slots := pf.projects.Values, pf.Slots();
      OldIsStill(pf);
      ViewFields();
      ghost var v, t, m := View(), Aim(pf), pf.Model();
      NothingReached(pf);
      assert infos[..0] == [];
      assert forall k | 0 <= k < |alives| :: alives[k] in alives && Fits(infos[k], names);
      for i := 0 to |alives|
        invariant Valid() && Holds(pf) && Fine(pf) && Reached(pf, v, t, m, infos[..i])
        invariant forall p | p in pf.projects.Values :: p in projects || fresh(p)
        invariant forall a | a in pf.Slots() :: a in slots || fresh(a)
        invariant forall k | 0 <= k < |alives| :: alives[k].Info() == infos[k]
      {
        assert infos[..i + 1] == infos[..i] + [infos[i]];
        label here:
        AddNext(pf, alives[i], v, t, m, infos[..i]);
        forall a | a in pf.Slots() ensures a in slots || fresh(a) {
          if a !in old@here(pf.Slots()) {
            assert a in pf.Slots() - old@here(pf.Slots()) && !old@here(allocated(a));
          }
        }
        forall k | 0 <= k < |alives| ensures alives[k].Info() == infos[k] {
          assert alives[k].Same@here();
        }
      }
      assert infos[..|alives|] == infos;
      AllReached(pf, v, t, m, infos);
    }

    lemma NothingReached(pf: Portfolio)
      requires Valid() && Fine(pf) && (Aim(pf).Old? ==> View().read.Still?)
      ensures Reached(pf, View(), Aim(pf), pf.Model(), [])
    {
      hide K.Fine, View, Aim, Portfolio.Model;
      W.NothingAdded(View(), Aim(pf));
    }

    lemma AllReached(pf: Portfolio, v: W.View, t: W.Target, m: Catalog.Projects, listed: seq<Details>)
      requires Valid() && Fine(pf) && Reached(pf, v, t, m, listed)
      ensures View() == W.Back(v, t, W.AddListed(W.Through(v, t), listed))
      ensures Aim(pf) == W.TargetBack(t, W.AddListed(W.Through(v, t), listed))
      ensures pf.Model() == Catalog.AddedAll(m, v.tombs, listed)
    {
    }

    /** No pause state waits for an ID that is another container's name. */
    ghost predicate PausesNamed()
      reads this, pauses
    {
      forall i | 0 <= i < |pauses.states| :: Unmistakable(names, pauses.states[i].id)
    }

    /** And the second one. */
    method PlayBackPauses(pf: Portfolio)
      requires Valid() && Holds(pf) && PausesNamed()
      modifies this`log, pf.projects.Values, pf.Slots()
      ensures Valid() && Holds(pf)
      ensures pf.projects == old(pf.projects) && pf.Slots() == old(pf.Slots())
      ensures var w := W.PlayBack(W.Through(old(View()), old(Aim(pf))), old(pauses.states));
              View() == W.Back(old(View()), old(Aim(pf)), w) && Aim(pf) == W.TargetBack(old(Aim(pf)), w)
    {
      hide Valid, View, Holds, Aim, K.Fine, Portfolio.Slots;
      hide W.Through, W.Back, W.TargetBack, W.SameButWriteAndLog, W.PlayBack;
      OldIsStill(pf);
      ghost var v, t := View(), Aim(pf);
      W.NothingPlayed(v, t);
      var states := pauses.states;
      for i := 0 to |states|
        invariant Valid() && Holds(pf) && Fine(pf)
        invariant pf.projects == old(pf.projects) && pf.Slots() == old(pf.Slots())
        invariant View() == W.Back(v, t, W.PlayBack(W.Through(v, t), states[..i]))
        invariant Aim(pf) == W.TargetBack(t, W.PlayBack(W.Through(v, t), states[..i]))
        invariant states == pauses.states
      {
        assert states[..i + 1][..i] == states[..i];
        W.PlaysNext(v, t, states[..i + 1]);
        PauseAndNotify(pf, states[i].id, PROJECT_UNKNOWN, states[i].paused);
        HoldsFine(pf);
      }
      assert states[..|states|] == states;
    }

    method ClearListing()
      requires Valid()
      modifies this`bluenorwegians, this`pauses, this`listinprogress
      ensures Valid() && View() == old(View()).(tombs := [], pauses := [], listing := false)
      ensures fresh(pauses)
    {
      hide Valid, View, K.Fine, K.Known, Apart;
      Parts();
      ViewFields();
      bluenorwegians := [];
      pauses := new PendingPauseStates();
      listinprogress := false;
      GateView();
    }

    /** Both loops, one after the other. */
    method AddAndPlayBack(pf: Portfolio, alives: seq<Container>)
      requires Valid() && Holds(pf) && PausesNamed() && forall c | c in alives :: Fits(c.Info(), names)
      modifies this`log, pf, pf.projects.Values, pf.Slots()
      ensures Valid() && Holds(pf)
      ensures fresh(pf.projects.Values - old(pf.projects.Values)) && fresh(pf.Slots() - old(pf.Slots()))
      ensures var w := W.PlayBack(W.AddListed(W.Through(old(View()), old(Aim(pf))), Views(alives)), old(pauses.states));
              View() == W.Back(old(View()), old(Aim(pf)), w) && Aim(pf) == W.TargetBack(old(Aim(pf)), w)
    {
      hide Valid, View, Holds, Aim, K.Fine, Views, Portfolio.Slots;
      hide W.Through, W.Back, W.TargetBack, W.AddListed, W.PlayBack;
      OldIsStill(pf);
      ViewFields();
      W.OneAfterTheOther(View(), Aim(pf), Views(alives), pauses.states);
      AddAlives(pf, alives);
      ViewFields();
      HoldsFine(pf);
      PlayBackPauses(pf);
    }

    /** The gated commit of a listing, undisturbed. */
    method ListCommit(alives: seq<Container>)
      requires Valid() && PausesNamed() && forall c | c in alives :: Fits(c.Info(), names)
      modifies this`log, this`bluenorwegians, this`pauses, this`listinprogress,
               writeportfolio, writeportfolio.projects.Values, writeportfolio.Slots()
      ensures Valid() && View() == W.CommitList(old(View()), Views(alives))
      ensures fresh(pauses) && fresh(writeportfolio.projects.Values - old(writeportfolio.projects.Values))
      ensures fresh(writeportfolio.Slots() - old(writeportfolio.Slots()))
    {
      hide Valid, View, Holds, Aim, K.Fine, Views, Portfolio.Slots;
      ViewFields();
      WritesLive();
      var pf := writeportfolio;
      AddAndPlayBack(pf, alives);
      ClearListing();
    }

    // ---- Replacing and publishing portfolios ----

    twostate predicate GateKept()
      reads this, pauses
    {
      && listinprogress == old(listinprogress) && bluenorwegians == old(bluenorwegians) && log == old(log)
      && pauses == old(pauses) && pauses.states == old(pauses.states)
    }

    /** The write portfolio has gone online. */
    twostate lemma Online(pf: Portfolio)
      requires old(Valid()) && old(Holds(pf))
      requires readportfolio == writeportfolio == old(writeportfolio) && GateKept()
      requires Untouched(writeportfolio) && Untouched(pf)
      requires forall c: Container | old(allocated(c)) :: c.Same()
      ensures Valid() && View() == old(View()).(read := W.Shared)
      ensures Holds(pf) && Aim(pf) == W.Unseen(old(View()), old(Aim(pf)))
    {
      hide K.Fine, K.Known, Portfolio.Slots;
      SameKnown(writeportfolio);
      SameKnown(pf);
    }

    /** Putting the write portfolio online. A commit may be writing to any portfolio at that
        time. */
    method Publish(ghost pf: Portfolio)
      requires Valid() && Holds(pf)
      modifies this`readportfolio
      ensures Valid() && View() == W.Publish(old(View()))
      ensures Holds(pf) && Aim(pf) == W.Unseen(old(View()), old(Aim(pf)))
      ensures readportfolio == writeportfolio
    {
      hide Valid, View, Holds, Aim, K.Fine, K.Known, Apart, Portfolio.Slots;
      readportfolio := writeportfolio;
      Online(pf);
    }

    /** A new, empty portfolio has taken the place of the write portfolio. */
    twostate lemma Renewed(pf: Portfolio)
      requires old(Valid()) && old(Holds(pf)) && readportfolio == old(readportfolio) && GateKept()
      requires fresh(writeportfolio) && Fine(writeportfolio) && Known(writeportfolio) == map[]
      requires forall n | n in writeportfolio.projects ::
                 fresh(writeportfolio.projects[n]) && fresh(writeportfolio.projects[n].slots)
      requires Untouched(readportfolio) && Untouched(pf)
      requires forall c: Container | old(allocated(c)) :: c.Same()
      ensures Valid() && View() == old(View()).(write := map[], read := W.Still(old(View()).Visible()))
      ensures Holds(pf)
      ensures Aim(pf) == if !old(Aim(pf)).Live? then old(Aim(pf))
                         else if old(View()).read.Shared? then W.Old else W.Lost(old(View()).write)
    {
      hide K.Fine, K.Known, Portfolio.Slots;
      SameKnown(readportfolio);
      SameKnown(pf);
    }

    method NewPortfolio() returns (pf: Portfolio)
      ensures fresh(pf) && Fine(pf) && Known(pf) == map[]
      ensures forall n | n in pf.projects :: fresh(pf.projects[n]) && fresh(pf.projects[n].slots)
    {
      hide K.Fine, K.Known, Portfolio.Model, Portfolio.Valid;
      pf := new Portfolio();
      assert forall n | n in pf.projects :: pf.projects[n] in pf.projects.Values && pf.projects[n].slots in pf.Slots();
      K.NewIsFine(pf, names);
    }

    method Nothing(pf: Portfolio) returns (empty: bool)
      requires Fine(pf)
      ensures Fine(pf) && Known(pf) == old(Known(pf)) && (empty <==> |Known(pf)| == 0)
    {
      hide K.Fine, K.Known;
      empty := K.Empty(pf, names);
    }

    twostate predicate NewWrite()
      reads this, writeportfolio, writeportfolio.projects.Values
    {
      && fresh(writeportfolio)
      && forall n | n in writeportfolio.projects ::
           fresh(writeportfolio.projects[n]) && fresh(writeportfolio.projects[n].slots)
    }

    /** First half of the swap: a fresh write portfolio unless it is empty anyway. */
    method RenewWrite(ghost pf: Portfolio)
      requires Valid() && Holds(pf)
      modifies this`writeportfolio
      ensures Valid() && View() == W.RenewWrite(old(View()))
      ensures Holds(pf)
      ensures Aim(pf) == if !old(Aim(pf)).Live? || |old(View()).write| == 0 then old(Aim(pf))
                         else if old(View()).read.Shared? then W.Old else W.Lost(old(View()).write)
      ensures writeportfolio == old(writeportfolio) || NewWrite()
    {
      hide Valid, View, Holds, Aim, K.Fine, K.Known, Apart, Portfolio.Slots;
      Parts();
      ViewFields();
      var empty := Nothing(writeportfolio);
      OnlyLogged(pf);
      if !empty {
        var another := NewPortfolio();
        label made:
        writeportfolio := another;
        SameKnown@made(another);
        Renewed(pf);
      }
    }

    /** Second half: readers share it unless they have something to look at. */
    method RenewRead(ghost pf: Portfolio)
      requires Valid() && Holds(pf)
      modifies this`readportfolio
      ensures Valid() && View() == W.RenewRead(old(View()))
      ensures Holds(pf)
      ensures Aim(pf) == if |old(View()).Visible()| == 0 then W.Unseen(old(View()), old(Aim(pf))) else old(Aim(pf))
      ensures readportfolio == old(readportfolio) || readportfolio == writeportfolio
    {
      hide Valid, View, Holds, Aim, K.Fine, K.Known, Apart, Portfolio.Slots;
      Parts();
      ViewFields();
      var empty := Nothing(readportfolio);
      OnlyLogged(pf);
      if empty {
        readportfolio := writeportfolio;
        Online(pf);
      }
    }

    ghost method ForgetLog(pf: Portfolio)
      requires Valid() && Holds(pf)
      modifies this`log
      ensures Valid() && View() == old(View()).(log := [])
      ensures Holds(pf) && Aim(pf) == old(Aim(pf))
    {
      hide Valid, View, Holds, Aim, K.Fine, K.Known, Portfolio.Slots;
      log := [];
      OnlyLogged(pf);
    }

    /** The swap at the beginning of an attempt; and what becomes of the portfolio that a
        commit under way is writing to. */
    method BeginAttempt(ghost pf: Portfolio)
      requires Valid() && Holds(pf)
      modifies this`readportfolio, this`writeportfolio, this`log
      ensures Valid() && View() == W.BeginAttempt(old(View()))
      ensures Holds(pf) && Aim(pf) == W.Overtaken(old(View()), old(Aim(pf)))
      ensures writeportfolio == old(writeportfolio) || NewWrite()
      ensures readportfolio == old(readportfolio) || readportfolio == writeportfolio
    {
      hide Valid, View, Holds, Aim, K.Fine, K.Known, Portfolio.Slots;
      RenewWrite(pf);
      RenewRead(pf);
      ForgetLog(pf);
    }

    // ---- A commit that looks on ----

    static lemma ApartParts(p: Portfolio, q: Portfolio)
      requires Apart(p, q) && p != q
      ensures forall n | n in q.projects :: q.projects[n] !in p.projects.Values && q.projects[n].slots !in p.Slots()
    {
    }

    twostate predicate Grown(pf: Portfolio)
      reads pf, pf.projects.Values
    {
      forall n | n in pf.projects ::
        && (pf.projects[n] in old(pf.projects.Values) || fresh(pf.projects[n]))
        && (pf.projects[n].slots in old(pf.Slots()) || fresh(pf.projects[n].slots))
    }

    twostate lemma UntouchedGrown(pf: Portfolio)
      requires Untouched(pf)
      ensures Grown(pf)
    {
      assert forall n | n in pf.projects :: old(pf.projects[n].slots) in old(pf.Slots());
    }

    twostate lemma FreshGrown(pf: Portfolio)
      requires fresh(pf.projects.Values - old(pf.projects.Values)) && fresh(pf.Slots() - old(pf.Slots()))
      ensures Grown(pf)
    {
      OwnParts(pf);
    }

    twostate lemma SameGrown(pf: Portfolio)
      requires pf.projects == old(pf.projects) && pf.Slots() == old(pf.Slots())
      ensures Grown(pf)
    {
      OwnParts(pf);
    }

    twostate lemma StillApartFrom(held: Portfolio)
      requires old(Holds(held)) && readportfolio == old(readportfolio) && writeportfolio == old(writeportfolio)
      requires Untouched(held) && Grown(readportfolio) && Grown(writeportfolio)
      ensures Apart(held, readportfolio) && Apart(held, writeportfolio)
    {
      hide K.Fine;
    }

    /** What others do to the write portfolio makes no difference to the portfolio that a
        commit has got hold of, unless it is the same. */
    twostate lemma LooksOn(held: Portfolio)
      requires old(Holds(held)) && readportfolio == old(readportfolio) && writeportfolio == old(writeportfolio)
      requires Untouched(held) && Grown(readportfolio) && Grown(writeportfolio)
      requires forall c: Container | old(allocated(c)) :: c.Same()
      ensures Holds(held) && Aim(held) == old(Aim(held))
    {
      hide K.Fine, K.Known, Apart, Grown, Portfolio.Slots;
      StillApartFrom(held);
      SameKnown(held);
    }

    static ghost function PartsOf(pf: Portfolio): set<object>
      reads pf, pf.projects.Values
    {
      {pf} + pf.projects.Values + pf.Slots()
    }

    /** All that the watcher, and the commit that has got hold of a portfolio, may write to. */
    ghost function Own(held: Portfolio): set<object>
      reads this, readportfolio, readportfolio.projects.Values, writeportfolio, writeportfolio.projects.Values,
            held, held.projects.Values
    {
      {this, pauses} + PartsOf(readportfolio) + PartsOf(writeportfolio) + PartsOf(held)
    }

    /** Containers are never written to. */
    lemma OwnsNoContainer(held: Portfolio)
      ensures forall c: Container :: c !in Own(held)
    {
    }

    twostate lemma PartsGrown(pf: Portfolio)
      requires Grown(pf)
      ensures forall o | o in PartsOf(pf) :: o in old(PartsOf(pf)) || fresh(o)
    {
      forall o | o in PartsOf(pf) ensures o in old(PartsOf(pf)) || fresh(o) {
        if o != pf {
          var n :| n in pf.projects && (o == pf.projects[n] || o == pf.projects[n].slots);
        }
      }
    }

    twostate lemma OwnGrown(held: Portfolio)
      requires readportfolio == old(readportfolio) && writeportfolio == old(writeportfolio)
      requires pauses == old(pauses) || fresh(pauses)
      requires Grown(readportfolio) && Grown(writeportfolio) && Grown(held)
      ensures forall o | o in Own(held) :: o in old(Own(held)) || fresh(o)
    {
      hide PartsOf, Grown;
      PartsGrown(readportfolio);
      PartsGrown(writeportfolio);
      PartsGrown(held);
    }

    twostate lemma OldParts(pf: Portfolio)
      requires Untouched(pf)
      ensures PartsOf(pf) == old(PartsOf(pf))
    {
      assert forall n | n in pf.projects ::
          pf.projects[n].slots in pf.Slots() && old(pf.projects[n].slots) in old(pf.Slots());
      assert pf.Slots() == old(pf.Slots());
    }

    twostate lemma NewParts()
      requires NewWrite()
      ensures forall o | o in PartsOf(writeportfolio) :: fresh(o)
    {
    }

    /** Swapping portfolios makes nothing one's own but what one had, and what is new. */
    twostate lemma OwnSwapped(held: Portfolio)
      requires writeportfolio == old(writeportfolio) || NewWrite()
      requires readportfolio == old(readportfolio) || readportfolio == writeportfolio
      requires pauses == old(pauses) && Untouched(held)
      requires Untouched(old(readportfolio)) && Untouched(old(writeportfolio))
      ensures forall o | o in Own(held) :: o in old(Own(held)) || fresh(o)
    {
      hide PartsOf, Untouched, NewWrite;
      OldParts(held);
      OldParts(old(readportfolio));
      OldParts(old(writeportfolio));
      if writeportfolio != old(writeportfolio) { NewParts(); }
    }

    /** What is written to the write portfolio is out of reach for whoever has another one. */
    lemma Bystanders(held: Portfolio)
      requires Valid() && Holds(held)
      ensures Holds(writeportfolio) && Aim(writeportfolio) == W.Live
      ensures held == writeportfolio ==> Aim(held) == W.Live
      ensures forall q, n | q in {held, readportfolio} && q != writeportfolio && n in q.projects ::
                q.projects[n] !in writeportfolio.projects.Values && q.projects[n].slots !in writeportfolio.Slots()
    {
      hide K.Fine;
      WritesLive();
      if held != writeportfolio { ApartParts(writeportfolio, held); }
      if readportfolio != writeportfolio { ApartParts(writeportfolio, readportfolio); }
    }
  }
}
