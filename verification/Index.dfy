/** A portfolio seen by container ID, and what makes IDs good enough for that. */
module Index {
  import opened Containers
  import opened Catalog

  // Stands for a project name that is not known.
  const PROJECT_UNKNOWN := "\0"

  datatype Naming = Naming(name: string, project: string)

  // The name and project that go with an ID, for all IDs there are.
  type Names = map<Id, Naming>

  /** No container's name is another container's ID. Equal names are fine. */
  ghost predicate NoNameIsAnId(names: Names) {
    forall a, b | a in names && b in names :: names[a].name == b ==> a == b
  }

  /** The ID is no other container's name. It need not be a container's ID at all. */
  ghost predicate Unmistakable(names: Names, id: Id) {
    forall a | a in names :: names[a].name == id ==> a == id
  }

  /** With this project name the container is looked for where it is, if it is anywhere. */
  predicate Leads(names: Names, id: Id, projectname: string) {
    projectname == PROJECT_UNKNOWN || (id in names && projectname == names[id].project)
  }

  predicate Fits(d: Details, names: Names) {
    d.id in names && Naming(d.name, d.project) == names[d.id]
  }

  ghost predicate AllFit(m: Projects, names: Names) {
    forall n, i | n in m && 0 <= i < |m[n]| :: Fits(m[n][i], names)
  }

  ghost predicate UniqueIds(m: Projects) {
    forall d, e | d in Flat(m) && e in Flat(m) && d.id == e.id :: d == e
  }

  /** The map holds exactly these containers, each under its ID. */
  ghost predicate Indexes(f: multiset<Details>, r: map<Id, Details>) {
    && (forall d | d in f :: d.id in r && r[d.id] == d)
    && (forall id | id in r :: r[id] in f && r[id].id == id)
  }

  ghost function ById(m: Projects): (r: map<Id, Details>)
    requires UniqueIds(m)
    ensures Indexes(Flat(m), r)
  {
    map d | d in Flat(m) :: d.id := d
  }

  lemma SameIndex(f: multiset<Details>, r: map<Id, Details>, q: map<Id, Details>)
    requires Indexes(f, r) && Indexes(f, q)
    ensures r == q
  {
    assert forall id | id in r :: id in q && q[id] == r[id];
    assert forall id | id in q :: id in r;
  }

  lemma IndexMore(f: multiset<Details>, r: map<Id, Details>, c: Details)
    requires Indexes(f, r) && c.id !in r
    ensures Indexes(f + multiset{c}, r[c.id := c])
  {
    assert forall d | d in f + multiset{c} :: d in f || d == c;
    assert forall id | id in r :: r[id] in f + multiset{c};
    assert c in f + multiset{c};
  }

  lemma IndexLess(f: multiset<Details>, r: map<Id, Details>, d: Details)
    requires Indexes(f, r) && f[d] == 1
    ensures Indexes(f - multiset{d}, r - {d.id})
  {
    assert d in f;
    forall e | e in f - multiset{d} ensures e in f && e != d && e.id != d.id {
    }
    forall id | id in r - {d.id} ensures r[id] in f - multiset{d} {
    }
  }

  lemma IndexOther(f: multiset<Details>, r: map<Id, Details>, d: Details, e: Details)
    requires Indexes(f, r) && f[d] == 1 && e.id == d.id
    ensures Indexes(f - multiset{d} + multiset{e}, r[d.id := e])
  {
    hide Indexes;
    IndexLess(f, r, d);
    IndexMore(f - multiset{d}, r - {d.id}, e);
    assert (r - {d.id})[d.id := e] == r[d.id := e];
  }

  lemma FitsFlat(m: Projects, names: Names, d: Details)
    requires AllFit(m, names) && d in Flat(m)
    ensures Fits(d, names)
  {
    hide Flat;
    InFlat(m, d);
    var n :| n in m && d in m[n];
    var i :| 0 <= i < |m[n]| && m[n][i] == d;
  }

  lemma FitIdsUnique(m: Projects, names: Names)
    requires Valid(m) && AllFit(m, names)
    ensures UniqueIds(m)
  {
    hide Flat, Valid, AllFit;
    forall d, e | d in Flat(m) && e in Flat(m) && d.id == e.id ensures d == e {
      FitsFlat(m, names, d);
      FitsFlat(m, names, e);
      FlatIsKeyed(m, d, e);
    }
  }

  /** Whatever order projects are searched in, an ID leads to its own container. */
  lemma LookupById(m: Projects, names: Names, id: Id, d: Details)
    requires Unmistakable(names, id) && AllFit(m, names) && UniqueIds(m)
    ensures d in Flat(m) && Matches(d, id) <==> id in ById(m) && ById(m)[id] == d
  {
    hide Flat, AllFit, UniqueIds, ById;
    if d in Flat(m) { FitsFlat(m, names, d); }
  }

  /** The container is known, and in this project. */
  ghost predicate KnownIn(m: Projects, names: Names, id: Id, project: string)
    requires UniqueIds(m)
  {
    id in ById(m) && id in names && names[id].project == project
  }

  lemma KnownFits(m: Projects, names: Names, id: Id)
    requires AllFit(m, names) && UniqueIds(m) && id in ById(m)
    ensures id in names && ById(m)[id].id == id && ById(m)[id].project == names[id].project
  {
    hide Flat, AllFit;
    FitsFlat(m, names, ById(m)[id]);
  }

  lemma TargetById(m: Projects, names: Names, id: Id, project: string)
    requires Unmistakable(names, id) && Valid(m) && AllFit(m, names) && UniqueIds(m)
    ensures Target(m, project, id) == if KnownIn(m, names, id, project) then Some(ById(m)[id]) else None
    ensures id in ById(m) ==> Flat(m)[ById(m)[id]] == 1
  {
    hide Flat, AllFit, Valid, Target, UniqueIds, ById, Unmistakable;
    TargetFlat(m, project, id);
    if id in ById(m) {
      KnownFits(m, names, id);
      LookupById(m, names, id, ById(m)[id]);
      FlatIsKeyed(m, ById(m)[id], ById(m)[id]);
    }
    match Target(m, project, id) {
      case Some(d) => LookupById(m, names, id, d);
      case None =>
    }
  }

  lemma HoldsById(m: Projects, names: Names, c: Details)
    requires Valid(m) && AllFit(m, names) && Fits(c, names) && UniqueIds(m)
    ensures (exists d :: d in Flat(m) && SameKey(d, c)) <==> c.id in ById(m)
  {
    hide Flat, AllFit, Valid, UniqueIds, ById;
    if c.id in ById(m) { FitsFlat(m, names, ById(m)[c.id]); }
  }

  lemma AddedIndex(m: Projects, names: Names, c: Details)
    requires Valid(m) && AllFit(m, names) && Fits(c, names) && UniqueIds(m) && UniqueIds(Added(m, c))
    ensures Holds(Project(m, c.project), c) <==> c.id in ById(m)
    ensures ById(Added(m, c)) == if c.id in ById(m) then ById(m) else ById(m)[c.id := c]
  {
    hide *;
    HoldsFlat(m, c);
    HoldsById(m, names, c);
    AddedFlat(m, c);
    if c.id !in ById(m) {
      IndexMore(Flat(m), ById(m), c);
      SameIndex(Flat(Added(m, c)), ById(Added(m, c)), ById(m)[c.id := c]);
    } else {
      SameIndex(Flat(Added(m, c)), ById(Added(m, c)), ById(m));
    }
  }

  /** Add, by ID: nothing happens if the ID is taken. */
  lemma AddedById(m: Projects, names: Names, c: Details)
    requires Valid(m) && AllFit(m, names) && Fits(c, names)
    ensures Valid(Added(m, c)) && AllFit(Added(m, c), names) && UniqueIds(m) && UniqueIds(Added(m, c))
    ensures Holds(Project(m, c.project), c) <==> c.id in ById(m)
    ensures ById(Added(m, c)) == if c.id in ById(m) then ById(m) else ById(m)[c.id := c]
  {
    hide Flat, ById;
    AddedValid(m, c);
    FitIdsUnique(m, names);
    FitIdsUnique(Added(m, c), names);
    AddedIndex(m, names, c);
  }

  lemma IdAt(m: Projects, id: Id)
    requires UniqueIds(m) && id in ById(m)
    ensures ById(m)[id].id == id
  {
  }

  lemma RemovedIndex(m: Projects, names: Names, id: Id, project: string)
    requires Unmistakable(names, id) && Valid(m) && AllFit(m, names)
    requires UniqueIds(m) && UniqueIds(Removed(m, id, project))
    ensures ById(Removed(m, id, project)) == if KnownIn(m, names, id, project) then ById(m) - {id} else ById(m)
  {
    hide *;
    var r := Removed(m, id, project);
    TargetById(m, names, id, project);
    RemovedFlat(m, id, project);
    if KnownIn(m, names, id, project) {
      IsKnown(m, names, id, project);
      IdAt(m, id);
      IndexLess(Flat(m), ById(m), ById(m)[id]);
      SameIndex(Flat(r), ById(r), ById(m) - {id});
    } else {
      SameIndex(Flat(r), ById(r), ById(m));
    }
  }

  lemma IsKnown(m: Projects, names: Names, id: Id, project: string)
    requires UniqueIds(m) && KnownIn(m, names, id, project)
    ensures id in ById(m)
  {
  }

  /** Remove, by ID: exactly that ID goes, if it is in that project at all. */
  lemma RemovedById(m: Projects, names: Names, id: Id, project: string)
    requires Unmistakable(names, id) && Valid(m) && AllFit(m, names)
    ensures var r := Removed(m, id, project);
            && Valid(r) && AllFit(r, names) && UniqueIds(m) && UniqueIds(r)
            && ById(r) == if KnownIn(m, names, id, project) then ById(m) - {id} else ById(m)
  {
    hide Flat, ById;
    RemovedValid(m, id, project);
    RemovedFits(m, names, id, project);
    FitIdsUnique(m, names);
    FitIdsUnique(Removed(m, id, project), names);
    RemovedIndex(m, names, id, project);
  }

  lemma RemovedFits(m: Projects, names: Names, nameorid: string, project: string)
    requires AllFit(m, names)
    ensures AllFit(Removed(m, nameorid, project), names)
  {
    hide Find;
  }

  lemma PausedIndex(m: Projects, names: Names, id: Id, project: string, paused: bool)
    requires Unmistakable(names, id) && Valid(m) && AllFit(m, names)
    requires UniqueIds(m) && UniqueIds(Paused(m, project, id, paused))
    ensures ById(Paused(m, project, id, paused)) ==
            if KnownIn(m, names, id, project) then ById(m)[id := ById(m)[id].(paused := paused)] else ById(m)
  {
    hide *;
    var r := Paused(m, project, id, paused);
    TargetById(m, names, id, project);
    PausedFlat(m, project, id, paused);
    if KnownIn(m, names, id, project) {
      IsKnown(m, names, id, project);
      IdAt(m, id);
      var d := ById(m)[id];
      IndexOther(Flat(m), ById(m), d, d.(paused := paused));
      SameIndex(Flat(r), ById(r), ById(m)[id := d.(paused := paused)]);
    } else {
      SameIndex(Flat(r), ById(r), ById(m));
    }
  }

  /** SetPaused, by ID: exactly its state changes, if it is in that project at all. */
  lemma PausedById(m: Projects, names: Names, id: Id, project: string, paused: bool)
    requires Unmistakable(names, id) && Valid(m) && AllFit(m, names)
    ensures var r := Paused(m, project, id, paused);
            && Valid(r) && AllFit(r, names) && UniqueIds(m) && UniqueIds(r)
            && ById(r) ==
               if KnownIn(m, names, id, project) then ById(m)[id := ById(m)[id].(paused := paused)] else ById(m)
  {
    hide Flat, ById;
    PausedValid(m, project, id, paused);
    PausedFits(m, names, id, project, paused);
    FitIdsUnique(m, names);
    FitIdsUnique(Paused(m, project, id, paused), names);
    PausedIndex(m, names, id, project, paused);
  }

  lemma PausedFits(m: Projects, names: Names, nameorid: string, project: string, paused: bool)
    requires AllFit(m, names)
    ensures AllFit(Paused(m, project, nameorid, paused), names)
  {
    hide Find;
  }

  /** What searching all projects for a name or ID may come up with: the projects are
      searched in any order, and the first answer counts. */
  ghost predicate MayFind(m: Projects, nameorid: string, found: Option<Details>) {
    match found
    case Some(_) => exists n :: n in m && Answer(m[n], nameorid) == found
    case None => forall n | n in m :: Answer(m[n], nameorid) == None
  }

  lemma MayFindFlat(m: Projects, nameorid: string, found: Option<Details>)
    requires MayFind(m, nameorid, found)
    ensures found.Some? ==> found.value in Flat(m) && Matches(found.value, nameorid)
    ensures found.None? ==> forall d | d in Flat(m) :: !Matches(d, nameorid)
  {
    hide Flat;
    match found {
      case Some(d) => InFlat(m, d);
      case None =>
        forall d | d in Flat(m) ensures !Matches(d, nameorid) {
          InFlat(m, d);
          var n :| n in m && d in m[n];
          var i :| 0 <= i < |m[n]| && m[n][i] == d;
        }
    }
  }

  /** Everything that answers to the name or ID is in this project. */
  ghost predicate NowhereElse(m: Projects, nameorid: string, project: string) {
    forall d | d in Flat(m) && Matches(d, nameorid) :: d.project == project
  }

  /** Whatever the search comes up with is what the project itself would have come up with. */
  ghost predicate SearchLeadsTo(m: Projects, nameorid: string, project: string) {
    forall found | MayFind(m, nameorid, found) :: found == Target(m, project, nameorid)
  }

  lemma OnlyThere(m: Projects, nameorid: string, project: string, found: Option<Details>)
    requires Valid(m) && NowhereElse(m, nameorid, project) && MayFind(m, nameorid, found)
    ensures found == Target(m, project, nameorid)
  {
    hide Flat, Valid, Answer;
    MayFindFlat(m, nameorid, found);
    TargetFlat(m, project, nameorid);
    if found.Some? {
      var n :| n in m && Answer(m[n], nameorid) == found;
      AnswersFromHome(m, nameorid, n);
      assert n == project;
    }
  }

  lemma AnswersFromHome(m: Projects, nameorid: string, n: string)
    requires Valid(m) && n in m && Answer(m[n], nameorid).Some?
    ensures Answer(m[n], nameorid).value.project == n
  {
  }

  lemma FoundElsewhere(m: Projects, nameorid: string, project: string, d: Details)
    requires Valid(m) && d in Flat(m) && Matches(d, nameorid) && d.project != project
    ensures !SearchLeadsTo(m, nameorid, project)
  {
    hide Flat, Valid, Answer, Find;
    TargetFlat(m, d.project, nameorid);
    TargetFlat(m, project, nameorid);
    var found := Target(m, d.project, nameorid);
    InFlatOf(m, d);
    assert d.project in m && found == Answer(m[d.project], nameorid);
    assert MayFind(m, nameorid, found);
  }

  /** Finding a container the hard way, because its project is unknown, leads to the very
      container that the project would have led to, in every search order, if and only if
      nothing outside that project answers to the name or ID. */
  lemma SlowPathIffUnambiguous(m: Projects, nameorid: string, project: string)
    requires Valid(m)
    ensures SearchLeadsTo(m, nameorid, project) <==> NowhereElse(m, nameorid, project)
  {
    hide Flat, Valid, MayFind, Target;
    if NowhereElse(m, nameorid, project) {
      forall found | MayFind(m, nameorid, found) ensures found == Target(m, project, nameorid) {
        OnlyThere(m, nameorid, project, found);
      }
    } else {
      var d :| d in Flat(m) && Matches(d, nameorid) && d.project != project;
      FoundElsewhere(m, nameorid, project, d);
    }
  }

  lemma UnmistakableNowhereElse(m: Projects, names: Names, id: Id)
    requires Unmistakable(names, id) && AllFit(m, names) && id in names
    ensures NowhereElse(m, id, names[id].project)
  {
    hide Flat, AllFit;
    forall d | d in Flat(m) && Matches(d, id) ensures d.project == names[id].project {
      FitsFlat(m, names, d);
    }
  }

  /** In particular for an ID that cannot be mistaken: the search comes up with its own
      container, which is what its own project would have led to. */
  lemma SlowPathIsFastPath(m: Projects, names: Names, id: Id, found: Option<Details>)
    requires Unmistakable(names, id) && Valid(m) && AllFit(m, names)
    requires MayFind(m, id, found)
    ensures id in names ==> found == Target(m, names[id].project, id)
    ensures found.Some? ==> id in names && found.value.project == names[id].project
    ensures UniqueIds(m) && found == if id in ById(m) then Some(ById(m)[id]) else None
  {
    hide Flat, Valid, AllFit, ById, UniqueIds, MayFind, Target, Unmistakable, NowhereElse;
    FitIdsUnique(m, names);
    if id in names {
      UnmistakableNowhereElse(m, names, id);
      OnlyThere(m, id, names[id].project, found);
      TargetById(m, names, id, names[id].project);
    } else {
      MayFindFlat(m, id, found);
      if found.Some? { LookupById(m, names, id, found.value); }
    }
    if id in ById(m) { KnownFits(m, names, id); }
  }

  // ---- Names must not be mistaken for IDs ----

  /** Searching for an ID never comes up with another container. */
  ghost predicate IdsLeadHome(names: Names) {
    forall m, id, found: Option<Details> |
      Valid(m) && AllFit(m, names) && id in names && MayFind(m, id, found) && found.Some? :: found.value.id == id
  }

  /** The assumption about names is just what lookups by ID need. */
  lemma IdsLeadHomeIffNoNameIsAnId(names: Names)
    ensures IdsLeadHome(names) <==> NoNameIsAnId(names)
  {
    if NoNameIsAnId(names) {
      forall m, id, found: Option<Details> |
        Valid(m) && AllFit(m, names) && id in names && MayFind(m, id, found) && found.Some?
        ensures found.value.id == id
      {
        MayFindFlat(m, id, found);
        FitsFlat(m, names, found.value);
      }
    } else {
      var a, b :| a in names && b in names && names[a].name == b && a != b;
      Mistaken(names, a, b);
    }
  }

  lemma Mistaken(names: Names, a: Id, b: Id)
    requires a in names && b in names && names[a].name == b && a != b
    ensures !IdsLeadHome(names)
  {
    var c := Details(a, b, names[a].project, 0, false);
    var m := EMPTY[c.project := [c]];
    assert Find([c], b) == 0;
    assert Answer(m[c.project], b) == Some(c);
    assert MayFind(m, b, Some(c));
  }
}
