/** One portfolio object by container ID: what looking up, adding, removing and pausing do
    to the map of known containers, whether the project of a container is known or not. */
module KnownPortfolios {
  import opened Containers
  import opened Index
  import opened Store
  import Catalog

  ghost predicate Fine(pf: Portfolio, names: Names)
    reads pf, pf.projects.Values, pf.Stored(), pf.Slots()
  {
    pf.Valid() && AllFit(pf.Model(), names)
  }

  ghost function Known(pf: Portfolio, names: Names): map<Id, Details>
    requires Fine(pf, names)
    reads pf, pf.projects.Values, pf.Stored(), pf.Slots()
  {
    FitIdsUnique(pf.Model(), names);
    ById(pf.Model())
  }

  lemma KnownIs(pf: Portfolio, names: Names)
    requires Fine(pf, names)
    ensures pf.Valid() && Catalog.Valid(pf.Model()) && AllFit(pf.Model(), names)
    ensures UniqueIds(pf.Model()) && Known(pf, names) == ById(pf.Model())
  {
    FitIdsUnique(pf.Model(), names);
  }

  lemma FineIs(pf: Portfolio, names: Names)
    requires pf.Valid() && AllFit(pf.Model(), names)
    ensures Fine(pf, names)
  {
  }

  /** A new portfolio knows nothing. */
  lemma NewIsFine(pf: Portfolio, names: Names)
    requires pf.Valid() && pf.Model() == Catalog.EMPTY
    ensures Fine(pf, names) && Known(pf, names) == map[]
  {
    Catalog.EmptyFlat();
    assert AllFit(pf.Model(), names);
    FitIdsUnique(pf.Model(), names);
    SameIndex(Catalog.Flat(pf.Model()), ById(pf.Model()), map[]);
  }

  function Entry(m: map<Id, Details>, id: Id): Option<Details> {
    if id in m then Some(m[id]) else None
  }

  function Changed(m: map<Id, Details>, id: Id, paused: bool): map<Id, Details> {
    if id in m then m[id := m[id].(paused := paused)] else m
  }

  // What is left, and which container it is about, if the project is the right one.

  function RemovedIf(right: bool, m: map<Id, Details>, id: Id): (map<Id, Details>, Option<Details>) {
    if right then (m - {id}, Entry(m, id)) else (m, None)
  }

  function PausedIf(right: bool, m: map<Id, Details>, id: Id, paused: bool): (map<Id, Details>, Option<Details>) {
    if right then (Changed(m, id, paused), Entry(Changed(m, id, paused), id)) else (m, None)
  }

  /** A given project name is the only place to look in; without one, every place is. */
  lemma OnlyInItsProject(m: map<Id, Details>, names: Names, id: Id, projectname: string, paused: bool)
    requires id in m ==> id in names && m[id].project == names[id].project
    ensures var found := id in m && (projectname == "\0" || projectname == m[id].project);
            && RemovedIf(Leads(names, id, projectname), m, id)
            == (if found then (m - {id}, Some(m[id])) else (m, None))
            && PausedIf(Leads(names, id, projectname), m, id, paused)
            == if found then (m[id := m[id].(paused := paused)], Some(m[id].(paused := paused))) else (m, None)
  {
    if id !in m { assert m - {id} == m; }
  }

  ghost function Shown(c: Container?): Option<Details>
    reads c
  {
    if c == null then None else Some(c.Info())
  }

  method AddKnown(pf: Portfolio, ghost names: Names, cntr: Container) returns (added: bool)
    requires Fine(pf, names) && Fits(cntr.Info(), names)
    modifies pf, pf.projects.Values, pf.Slots()
    ensures Fine(pf, names)
    ensures fresh(pf.projects.Values - old(pf.projects.Values)) && fresh(pf.Slots() - old(pf.Slots()))
    ensures added == (cntr.id !in old(Known(pf, names)))
    ensures Known(pf, names) == if added then old(Known(pf, names))[cntr.id := cntr.Info()] else old(Known(pf, names))
    ensures pf.Model() == Catalog.Added(old(pf.Model()), cntr.Info())
  {
    hide Fine, Known, AllFit, Fits, ById, UniqueIds, Portfolio.Valid, Portfolio.Model;
    hide Catalog.Valid, Catalog.Added, Catalog.Holds;
    KnownIs(pf, names);
    AddedById(pf.Model(), names, cntr.Info());
    added := pf.Add(cntr);
    FineIs(pf, names);
    KnownIs(pf, names);
  }

  /** The project to look in: the given one, or else that of the container once found. */
  method Locate(pf: Portfolio, ghost names: Names, id: Id, projectname: string) returns (found: bool, project: string)
    requires Fine(pf, names) && Unmistakable(names, id)
    ensures Fine(pf, names) && Known(pf, names) == old(Known(pf, names))
    ensures found ==>
              project == if projectname == PROJECT_UNKNOWN && id in names then names[id].project else projectname
    ensures found && projectname == PROJECT_UNKNOWN ==> id in names
    ensures !found ==> id !in Known(pf, names)
  {
    hide Fine, Known, AllFit, Fits, ById, UniqueIds, Portfolio.Valid, Portfolio.Model;
    hide Catalog.Valid, MayFind, Catalog.Answer, Unmistakable;
    if projectname != PROJECT_UNKNOWN {
      return true, projectname;
    }
    KnownIs(pf, names);
    ghost var model := pf.Model();
    var container := pf.Container(id);
    pf.SameModel();
    SlowPathIsFastPath(model, names, id, if container == null then None else Some(container.Info()));
    FineIs(pf, names);
    KnownIs(pf, names);
    if container == null {
      return false, projectname;
    }
    return true, container.project;
  }

  /** The container is known, and in this project. */
  predicate Hit(m: map<Id, Details>, names: Names, id: Id, project: string) {
    id in m && id in names && names[id].project == project
  }

  lemma HitIs(pf: Portfolio, names: Names, id: Id, project: string)
    requires Fine(pf, names)
    ensures UniqueIds(pf.Model())
    ensures Hit(Known(pf, names), names, id, project) <==> KnownIn(pf.Model(), names, id, project)
  {
    KnownIs(pf, names);
  }

  method RemoveFrom(pf: Portfolio, ghost names: Names, id: Id, project: string) returns (cntr: Container?)
    requires Fine(pf, names) && Unmistakable(names, id)
    modifies pf, pf.projects.Values, pf.Slots()
    ensures Fine(pf, names)
    ensures fresh(pf.projects.Values - old(pf.projects.Values)) && fresh(pf.Slots() - old(pf.Slots()))
    ensures (Known(pf, names), Shown(cntr)) ==
            RemovedIf(Hit(old(Known(pf, names)), names, id, project), old(Known(pf, names)), id)
  {
    hide Fine, Known, AllFit, ById, UniqueIds, KnownIn, Hit, Unmistakable, Portfolio.Valid, Portfolio.Model;
    hide Catalog.Valid, Catalog.Removed, Catalog.Target;
    KnownIs(pf, names);
    HitIs(pf, names, id, project);
    RemovedById(pf.Model(), names, id, project);
    TargetById(pf.Model(), names, id, project);
    HitKnown(old(Known(pf, names)), names, id, project);
    cntr := pf.Remove(id, project);
    FineIs(pf, names);
    KnownIs(pf, names);
  }

  lemma HitKnown(m: map<Id, Details>, names: Names, id: Id, project: string)
    ensures Hit(m, names, id, project) ==> id in m
  {
  }

  /** Removing a container with its project known or not; with another project's name it
      stays where it is. */
  method RemoveKnown(pf: Portfolio, ghost names: Names, id: Id, projectname: string) returns (cntr: Container?)
    requires Fine(pf, names) && Unmistakable(names, id)
    modifies pf, pf.projects.Values, pf.Slots()
    ensures Fine(pf, names)
    ensures fresh(pf.projects.Values - old(pf.projects.Values)) && fresh(pf.Slots() - old(pf.Slots()))
    ensures (Known(pf, names), Shown(cntr)) == RemovedIf(Leads(names, id, projectname), old(Known(pf, names)), id)
  {
    hide Fine, Known, Unmistakable;
    KnownNamed(pf, names, id);
    var found, project := Locate(pf, names, id, projectname);
    cntr := null;
    if found {
      cntr := RemoveFrom(pf, names, id, project);
    }
    assert id !in old(Known(pf, names)) ==> old(Known(pf, names)) - {id} == old(Known(pf, names));
  }

  lemma KnownNamed(pf: Portfolio, names: Names, id: Id)
    requires Fine(pf, names)
    ensures id in Known(pf, names) ==> id in names
  {
    hide ById;
    KnownIs(pf, names);
    if id in Known(pf, names) { KnownFits(pf.Model(), names, id); }
  }

  method PauseIn(pf: Portfolio, ghost names: Names, id: Id, project: string, paused: bool) returns (cntr: Container?)
    requires Fine(pf, names) && Unmistakable(names, id)
    modifies pf.projects.Values, pf.Slots()
    ensures Fine(pf, names) && pf.projects == old(pf.projects) && pf.Slots() == old(pf.Slots())
    ensures (Known(pf, names), Shown(cntr)) ==
            PausedIf(Hit(old(Known(pf, names)), names, id, project), old(Known(pf, names)), id, paused)
  {
    hide Fine, Known, AllFit, ById, UniqueIds, KnownIn, Hit, Unmistakable, Portfolio.Valid, Portfolio.Model;
    hide Catalog.Valid, Catalog.Paused, Catalog.Target, Portfolio.Slots, Portfolio.Stored;
    KnownIs(pf, names);
    HitIs(pf, names, id, project);
    PausedById(pf.Model(), names, id, project, paused);
    TargetById(pf.Model(), names, id, project);
    HitKnown(old(Known(pf, names)), names, id, project);
    cntr := pf.SetPausedIn(project, id, paused);
    FineIs(pf, names);
    KnownIs(pf, names);
  }

  /** Changing a pause state with the project known or not; with another project's name
      nothing changes. */
  method PauseKnown(pf: Portfolio, ghost names: Names, id: Id, projectname: string, paused: bool)
    returns (cntr: Container?)
    requires Fine(pf, names) && Unmistakable(names, id)
    modifies pf.projects.Values, pf.Slots()
    ensures Fine(pf, names) && pf.projects == old(pf.projects) && pf.Slots() == old(pf.Slots())
    ensures (Known(pf, names), Shown(cntr)) ==
            PausedIf(Leads(names, id, projectname), old(Known(pf, names)), id, paused)
  {
    hide Fine, Known, Unmistakable, Portfolio.Slots, Portfolio.Stored;
    KnownNamed(pf, names, id);
    var found, project := Locate(pf, names, id, projectname);
    cntr := null;
    if found {
      cntr := PauseIn(pf, names, id, project, paused);
    }
  }

  method Empty(pf: Portfolio, ghost names: Names) returns (empty: bool)
    requires Fine(pf, names)
    ensures Fine(pf, names) && Known(pf, names) == old(Known(pf, names))
    ensures empty <==> |Known(pf, names)| == 0
  {
    hide Fine, Known, AllFit, ById, UniqueIds, Portfolio.Valid, Portfolio.Model, Catalog.Valid, Catalog.Flat;
    KnownIs(pf, names);
    NoneKnown(pf.Model());
    var total := pf.ContainerTotal();
    pf.SameModel();
    FineIs(pf, names);
    KnownIs(pf, names);
    empty := total == 0;
  }

  lemma NoneKnown(m: Catalog.Projects)
    requires UniqueIds(m)
    ensures |ById(m)| == 0 <==> |Catalog.Flat(m)| == 0
  {
    hide Catalog.Flat, ById, UniqueIds;
    if |ById(m)| != 0 { var id :| id in ById(m); }
    if |Catalog.Flat(m)| != 0 { var d :| d in Catalog.Flat(m); }
  }
}
