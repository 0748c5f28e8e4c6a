/** The portfolio as the program keeps it: project objects over slices of container
    objects, updated in place. Containers are never written to once handed out. */
module Store {
  import opened Containers
  import opened Catalog
  import Index

  class Container {
    var id: Id
    var name: string
    var project: string
    var pid: int
    var paused: bool

    ghost function Info(): Details
      reads this
    {
      Details(id, name, project, pid, paused)
    }

    twostate predicate Same()
      reads this
    {
      unchanged(this)
    }

    constructor (id: Id, name: string, project: string, pid: int, paused: bool)
      ensures this.Info() == Details(id, name, project, pid, paused)
      ensures this.id == id && this.name == name && this.project == project && this.pid == pid && this.paused == paused
    {
      this.id, this.name, this.project, this.pid, this.paused := id, name, project, pid, paused;
    }
  }

  ghost function Views(cs: seq<Container>): (r: seq<Details>)
    reads cs
    ensures |r| == |cs|
    ensures forall i | 0 <= i < |cs| :: r[i] == cs[i].Info()
  {
    if cs == [] then [] else [cs[0].Info()] + Views(cs[1..])
  }

  /** A project keeps its containers in a slice: an array that it may write to in place,
      and of which it uses the first `count` slots. */
  class ComposerProject {
    const name: string
    var slots: array<Container?>
    var count: nat
    ghost var containers: seq<Container>

    /** The slots in use hold the project's containers. */
    ghost predicate Sound()
      reads this, slots
    {
      count == |containers| <= slots.Length && forall i | 0 <= i < count :: slots[i] == containers[i]
    }

    twostate lemma StaysSound()
      requires old(Sound()) && unchanged(this) && unchanged(slots)
      ensures Sound()
    {
    }

    ghost function View(): seq<Details>
      reads this, containers
    {
      Views(containers)
    }

    constructor (name: string)
      ensures this.name == name && containers == [] && Sound() && fresh(slots)
    {
      this.name := name;
      slots := new Container?[0];
      count := 0;
      containers := [];
    }

    /** Callers get a slice of their own. */
    method Containers() returns (cs: array<Container?>)
      requires Sound()
      ensures fresh(cs) && cs.Length == |containers|
      ensures forall i | 0 <= i < cs.Length :: cs[i] == containers[i]
    {
      cs := new Container?[count];
      for i := 0 to count
        invariant forall j | 0 <= j < i :: cs[j] == containers[j]
      {
        cs[i] := slots[i];
      }
    }

    method ContainerNames() returns (names: seq<string>)
      requires Sound()
      ensures |names| == |View()|
      ensures forall i | 0 <= i < |names| :: names[i] == View()[i].name
    {
      names := [];
      for idx := 0 to count
        invariant |names| == idx
        invariant forall i | 0 <= i < idx :: names[i] == View()[i].name
      {
        assert slots[idx] == containers[idx];
        names := names + [slots[idx].name];
      }
    }

    method Container(nameorid: string) returns (c: Container?)
      requires Sound()
      ensures Answer(View(), nameorid) == if c == null then None else Some(c.Info())
      ensures c != null ==> c in containers && (c.name == nameorid || c.id == nameorid)
    {
      for idx := 0 to count
        invariant forall i | 0 <= i < idx :: !Matches(View()[i], nameorid)
      {
        assert slots[idx] == containers[idx];
        var cntr := slots[idx];
        if cntr.name == nameorid || cntr.id == nameorid {
          return cntr;
        }
      }
      return null;
    }

    /** The stored object is replaced, never changed: whoever got it keeps seeing it as
        it was. The same object comes back if there is nothing to change. */
    method SetPaused(nameorid: string, paused: bool) returns (c: Container?)
      requires Sound()
      modifies this`containers, slots
      ensures Sound()
      ensures View() == Repaused(old(View()), nameorid, paused)
      ensures c == null <==> Answer(old(View()), nameorid) == None
      ensures c != null ==> c.Info() == Answer(old(View()), nameorid).value.(paused := paused)
      ensures c != null ==> c.paused == paused && (c.name == nameorid || c.id == nameorid)
      ensures c == null ==> containers == old(containers)
      ensures c != null ==>
                var k := Find(old(View()), nameorid);
                && k < |old(containers)| && containers == old(containers)[k := c]
                && (old(containers[k].paused) == paused ==> c == old(containers[k]))
                && (old(containers[k].paused) != paused ==> fresh(c))
    {
      hide Views, Find;
      for idx := 0 to count
        invariant containers == old(containers) && unchanged(slots)
        invariant forall i | 0 <= i < idx :: !Matches(View()[i], nameorid)
      {
        assert slots[idx] == containers[idx];
        var cntr := slots[idx];
        if cntr.name == nameorid || cntr.id == nameorid {
          if paused != cntr.paused {
            var clone := new Container(cntr.id, cntr.name, cntr.project, cntr.pid, cntr.paused);
            clone.paused := paused;
            slots[idx] := clone;
            containers := containers[idx := clone];
            assert View() == old(View())[idx := clone.Info()];
            return clone;
          }
          assert containers == containers[idx := cntr];
          return cntr;
        }
      }
      return null;
    }

    /** Appending writes into spare capacity, if there is any. */
    method Append(c: Container)
      requires Sound()
      modifies this, slots
      ensures Sound() && containers == old(containers) + [c]
      ensures slots == old(slots) || fresh(slots)
    {
      if count == slots.Length {
        var bigger := new Container?[2 * count + 1];
        for i := 0 to count
          invariant unchanged(this) && unchanged(slots)
          invariant forall j | 0 <= j < i :: bigger[j] == slots[j]
        {
          bigger[i] := slots[i];
        }
        slots := bigger;
      }
      slots[count] := c;
      count := count + 1;
      containers := containers + [c];
    }

    method Add(c: Container) returns (added: bool)
      requires Sound()
      modifies this, slots
      ensures Sound() && (slots == old(slots) || fresh(slots))
      ensures added == !Holds(old(View()), c.Info())
      ensures containers == if added then old(containers) + [c] else old(containers)
      ensures View() == Joined(old(View()), c.Info())
    {
      hide Views;
      for idx := 0 to count
        invariant unchanged(this) && unchanged(slots)
        invariant forall i | 0 <= i < idx :: !(View()[i].name == c.name && View()[i].id == c.id)
      {
        assert slots[idx] == containers[idx];
        if slots[idx].name == c.name && slots[idx].id == c.id {
          assert View()[idx].name == c.name && View()[idx].id == c.id;
          return false;
        }
      }
      Append(c);
      return true;
    }

    method Remove(nameid: string) returns (c: Container?)
      requires Sound()
      modifies this`count, this`containers, slots
      ensures Sound()
      ensures View() == Left(old(View()), nameid)
      ensures Answer(old(View()), nameid) == if c == null then None else Some(c.Info())
      ensures c != null ==> c in old(containers)
      ensures var k := Find(old(View()), nameid);
              if k < |old(containers)| then c == old(containers[k]) && containers == SwapRemoved(old(containers), k)
              else c == null && containers == old(containers)
    {
      hide Views, Find;
      for idx := 0 to count
        invariant unchanged(this) && unchanged(slots)
        invariant forall i | 0 <= i < idx :: !Matches(View()[i], nameid)
      {
        assert slots[idx] == containers[idx];
        var cntr := slots[idx];
        if cntr.name == nameid || cntr.id == nameid {
          var last := count - 1;
          slots[idx] := slots[last];
          slots[last] := null;
          count := last;
          containers := SwapRemoved(containers, idx);
          assert View() == SwapRemoved(old(View()), idx);
          return cntr;
        }
      }
      return null;
    }
  }

  class Portfolio {
    var projects: map<string, ComposerProject>

    ghost predicate Keyed()
      reads this, projects.Values
    {
      forall n | n in projects :: projects[n].name == n
    }

    ghost function Stored(): set<Container>
      reads this, projects.Values
    {
      set n, c | n in projects && c in projects[n].containers :: c
    }

    ghost function Model(): (m: Projects)
      reads this, projects.Values, Stored()
    {
      assert forall n, c | n in projects && c in projects[n].containers :: c in Stored();
      map n | n in projects :: projects[n].View()
    }

    ghost function Slots(): set<array<Container?>>
      reads this, projects.Values
    {
      set n | n in projects :: projects[n].slots
    }

    /** Every project has a backing array of its own. */
    ghost predicate Housed()
      reads this, projects.Values, Slots()
    {
      && (forall n | n in projects :: projects[n].slots in Slots() && projects[n].Sound())
      && (forall n, k | n in projects && k in projects && n != k :: projects[n].slots != projects[k].slots)
    }

    ghost predicate Valid()
      reads this, projects.Values, Stored(), Slots()
    {
      Keyed() && Housed() && Catalog.Valid(Model())
    }

    constructor ()
      ensures Valid() && Model() == EMPTY && fresh(projects.Values) && fresh(Slots())
    {
      hide Valid, Model, Slots, Stored, ComposerProject.Sound;
      var zero := new ComposerProject("");
      projects := map["" := zero];
      label made:
      new;
      zero.StaysSound@made();
      NothingIn(zero);
    }

    lemma NothingIn(zero: ComposerProject)
      requires projects == map["" := zero] && zero.name == "" && zero.containers == [] && zero.Sound()
      ensures Valid() && Model() == EMPTY && projects.Values == {zero} && Slots() == {zero.slots}
    {
      assert Model() == EMPTY;
      assert projects[""] == zero;
    }

    method Names() returns (names: seq<string>)
      ensures forall n :: n in names <==> n in projects && n != ""
      ensures forall i, j | 0 <= i < j < |names| :: names[i] != names[j]
    {
      names := [];
      var rest := projects.Keys;
      while rest != {}
        invariant rest <= projects.Keys
        invariant forall n :: n in names <==> n in projects && n !in rest && n != ""
        invariant forall i, j | 0 <= i < j < |names| :: names[i] != names[j]
      {
        var name :| name in rest;
        rest := rest - {name};
        if name != "" {
          names := names + [name];
        }
      }
    }

    function Project(name: string): ComposerProject?
      reads this
    {
      if name in projects then projects[name] else null
    }

    lemma ModelAt(name: string)
      requires Valid() && name in projects
      ensures Model()[name] == Views(projects[name].containers) && projects[name].Sound()
      ensures Model().Keys == projects.Keys
    {
    }

    method Ask(name: string, nameorid: string) returns (c: Container?)
      requires Valid() && name in projects
      ensures Valid() && Model() == old(Model())
      ensures Answer(Model()[name], nameorid) == if c == null then None else Some(c.Info())
      ensures c != null ==> c in Stored()
    {
      hide Valid, Model, Views, Answer;
      ModelAt(name);
      c := projects[name].Container(nameorid);
      SameModel();
      ModelAt(name);
      assert c != null ==> c in projects[name].containers;
    }

    /** The first answer of any project, in whatever order the projects are asked. */
    method Container(nameorid: string) returns (c: Container?)
      requires Valid()
      ensures Index.MayFind(Model(), nameorid, if c == null then None else Some(c.Info()))
      ensures c != null ==> c in Stored()
    {
      hide Answer, Valid, Model, Stored;
      ModelKeys();
      var rest := projects.Keys;
      while rest != {}
        invariant rest <= projects.Keys == Model().Keys
        invariant Valid() && Model() == old(Model())
        invariant forall n | n in Model() && n !in rest :: Answer(Model()[n], nameorid) == None
      {
        var name :| name in rest;
        rest := rest - {name};
        c := Ask(name, nameorid);
        if c != null {
          return;
        }
      }
      return null;
    }

    method SizeOf(name: string) returns (size: nat)
      requires Valid() && name in projects
      ensures Valid() && Model() == old(Model()) && size == |Model()[name]|
    {
      hide Valid, Model, Views;
      ModelAt(name);
      var cs := projects[name].Containers();
      SameModel();
      size := cs.Length;
    }

    method ContainerTotal() returns (total: nat)
      requires Valid()
      ensures total == |Flat(Model())|
    {
      hide Flat, Valid, Model;
      total := 0;
      var rest := projects.Keys;
      ghost var left := Model();
      ModelKeys();
      while rest != {}
        invariant rest == left.Keys <= projects.Keys
        invariant Valid() && Model() == old(Model())
        invariant forall n | n in left :: n in Model() && left[n] == Model()[n]
        invariant |Flat(Model())| == total + |Flat(left)|
      {
        var name :| name in rest;
        rest := rest - {name};
        var size := SizeOf(name);
        total := total + size;
        FlatSplit(left, name);
        left := left - {name};
      }
      EmptyFlatTotal(left);
    }

    lemma ModelKeys()
      ensures Model().Keys == projects.Keys
    {
    }

    /** What iterating over one project visits. */
    method AllOf(name: string) returns (all: seq<Container>)
      requires Valid() && name in projects
      ensures Valid() && Model() == old(Model()) && Views(all) == Model()[name]
    {
      hide Valid, Model, Views;
      ModelAt(name);
      ghost var here := projects[name].containers;
      var cs := projects[name].Containers();
      SameModel();
      all := [];
      for i := 0 to cs.Length
        invariant all == here[..i]
      {
        all := all + [cs[i]];
      }
      assert here[..|here|] == here;
      ModelAt(name);
    }

    /** All containers, project by project in any order, undisturbed by updates. */
    method AllContainers() returns (all: seq<Container>)
      requires Valid()
      ensures multiset(Views(all)) == Flat(Model())
    {
      hide Flat, Views, Valid, Model;
      all := [];
      assert Views(all) == [];
      var rest := projects.Keys;
      ghost var left := Model();
      ModelKeys();
      while rest != {}
        invariant rest == left.Keys <= projects.Keys
        invariant Valid() && Model() == old(Model())
        invariant forall n | n in left :: n in Model() && left[n] == Model()[n]
        invariant Flat(Model()) == multiset(Views(all)) + Flat(left)
      {
        var name :| name in rest;
        rest := rest - {name};
        var here := AllOf(name);
        assert Views(all + here) == Views(all) + Views(here);
        all := all + here;
        FlatSplit(left, name);
        left := left - {name};
      }
      EmptyFlatTotal(left);
    }

    twostate lemma SameModel()
      requires unchanged(this)
      requires forall n | n in projects :: unchanged(projects[n])
      requires forall c | c in old(Stored()) :: unchanged(c)
      ensures Model() == old(Model())
      ensures old(Valid()) && (forall a | a in old(Slots()) :: unchanged(a)) ==> Valid()
    {
      hide Views, Catalog.Valid;
      forall n | n in projects ensures Model()[n] == old(Model())[n] {
        assert forall c | c in projects[n].containers :: c in old(Stored());
        SameViews(projects[n].containers);
      }
    }

    twostate lemma Dropped(name: string)
      requires projects == old(projects) - {name}
      requires forall n | n in projects :: unchanged(projects[n])
      requires forall c | c in old(Stored()) :: unchanged(c)
      ensures Model() == old(Model()) - {name}
    {
      hide Views;
      forall n | n in projects ensures Model()[n] == old(Model())[n] {
        assert forall c | c in projects[n].containers :: c in old(Stored());
        SameViews(projects[n].containers);
      }
    }

    /** An update of one project shows in the model at that project only. */
    twostate lemma OneProject(name: string)
      requires old(Keyed()) && Keyed()
      requires projects.Keys == old(projects.Keys) && name in projects
      requires forall n | n in projects :: projects[n] == old(projects[n])
      requires forall n | n in projects && n != name :: unchanged(projects[n])
      requires forall c | c in old(Stored()) :: unchanged(c)
      ensures Model() == old(Model())[name := projects[name].View()]
    {
      hide Views;
      forall n | n in projects && n != name ensures Model()[n] == old(Model())[n] {
        assert unchanged(projects[n]);
        assert forall c | c in projects[n].containers :: c in old(Stored());
        SameViews(projects[n].containers);
      }
    }

    lemma HousedAt(name: string)
      requires Keyed() && Housed() && name in projects
      ensures projects[name].Sound() && name in Model() && Model()[name] == projects[name].View()
      ensures forall n | n in projects && n != name ::
                projects[n] != projects[name] && projects[n].slots != projects[name].slots
    {
    }

    /** An update of one project leaves every project with an array of its own, and shows in
        the model at that project only. */
    twostate lemma OneChanged(name: string)
      requires old(Keyed()) && old(Housed()) && projects == old(projects) && name in projects
      requires projects[name].Sound()
      requires projects[name].slots == old(projects[name].slots) || fresh(projects[name].slots)
      requires forall n | n in projects && n != name :: unchanged(projects[n]) && unchanged(projects[n].slots)
      requires forall c | c in old(Stored()) :: unchanged(c)
      ensures Keyed() && Housed() && fresh(Slots() - old(Slots()))
      ensures projects[name].slots == old(projects[name].slots) ==> Slots() == old(Slots())
      ensures Model() == old(Model())[name := projects[name].View()]
    {
      hide Model, Housed, Slots, ComposerProject.Sound, ComposerProject.View;
      OneHoused(name);
      OneProject(name);
    }

    twostate lemma OneHoused(name: string)
      requires old(Housed()) && projects == old(projects) && name in projects
      requires projects[name].Sound()
      requires projects[name].slots == old(projects[name].slots) || fresh(projects[name].slots)
      requires forall n | n in projects && n != name :: unchanged(projects[n]) && unchanged(projects[n].slots)
      ensures Housed() && fresh(Slots() - old(Slots()))
      ensures projects[name].slots == old(projects[name].slots) ==> Slots() == old(Slots())
    {
      hide ComposerProject.Sound, Slots;
      OneSound(name);
      OneDistinct(name);
      OneSlot(name);
    }

    twostate lemma OneSound(name: string)
      requires projects == old(projects) && name in projects && projects[name].Sound()
      requires forall n | n in projects :: old(projects[n].Sound())
      requires forall n | n in projects && n != name :: unchanged(projects[n]) && unchanged(projects[n].slots)
      ensures forall n | n in projects :: projects[n].Sound()
    {
      hide ComposerProject.Sound;
      forall n | n in projects && n != name ensures projects[n].Sound() {
        projects[n].StaysSound();
      }
    }

    twostate lemma OneDistinct(name: string)
      requires projects == old(projects) && name in projects
      requires projects[name].slots == old(projects[name].slots) || fresh(projects[name].slots)
      requires forall n | n in projects && n != name :: projects[n].slots == old(projects[n].slots)
      requires forall n, k | n in projects && k in projects && n != k ::
                 old(projects[n].slots) != old(projects[k].slots)
      ensures forall n, k | n in projects && k in projects && n != k :: projects[n].slots != projects[k].slots
    {
      forall n, k | n in projects && k in projects && n != k ensures projects[n].slots != projects[k].slots {
        assert old(projects[n].slots) != old(projects[k].slots);
      }
    }

    twostate lemma OneSlot(name: string)
      requires projects == old(projects) && name in projects
      requires projects[name].slots == old(projects[name].slots) || fresh(projects[name].slots)
      requires forall n | n in projects && n != name :: projects[n].slots == old(projects[n].slots)
      ensures forall n | n in projects :: projects[n].slots in Slots()
      ensures fresh(Slots() - old(Slots()))
      ensures projects[name].slots == old(projects[name].slots) ==> Slots() == old(Slots())
    {
      assert forall n | n in projects && n != name :: projects[n].slots in old(Slots());
    }

    method AddTo(projname: string, cntr: Container) returns (added: bool)
      requires Keyed() && Housed() && projname in projects
      modifies projects[projname], projects[projname].slots
      ensures Keyed() && Housed() && fresh(Slots() - old(Slots()))
      ensures added == !Holds(old(Model())[projname], cntr.Info())
      ensures Model() == old(Model())[projname := Joined(old(Model())[projname], cntr.Info())]
    {
      hide Views, Holds, Joined, Model, Housed, Slots, Keyed;
      HousedAt(projname);
      added := projects[projname].Add(cntr);
      OneChanged(projname);
    }

    /** Creating a project that is not there yet. */
    method Ensure(projname: string)
      requires Keyed() && Housed()
      modifies this
      ensures Keyed() && Housed() && fresh(projects.Values - old(projects.Values)) && fresh(Slots() - old(Slots()))
      ensures projname in projects && Model() == old(Model())[projname := Catalog.Project(old(Model()), projname)]
    {
      hide Views, Housed, Model;
      ModelKeys();
      if projname !in projects {
        var proj := new ComposerProject(projname);
        projects := projects[projname := proj];
        Joins(projname, proj);
      } else {
        assert Model() == Model()[projname := Catalog.Project(Model(), projname)];
      }
    }

    /** A new project brings along an array of its own. */
    twostate lemma Joins(projname: string, new proj: ComposerProject)
      requires old(Keyed()) && old(Housed()) && projname !in old(projects)
      requires projects == old(projects)[projname := proj]
      requires proj.name == projname && proj.Sound() && proj.containers == [] && proj.slots !in old(Slots())
      requires forall n | n in old(projects) :: unchanged(projects[n]) && unchanged(projects[n].slots)
      requires forall c | c in old(Stored()) :: unchanged(c)
      ensures Keyed() && Housed() && Slots() == old(Slots()) + {proj.slots}
      ensures Model() == old(Model())[projname := []]
    {
      hide Model, Housed, Slots, ComposerProject.Sound;
      JoinsHoused(projname, proj);
      JoinsModel(projname, proj);
    }

    twostate lemma JoinsHoused(projname: string, new proj: ComposerProject)
      requires old(Housed()) && projname !in old(projects)
      requires projects == old(projects)[projname := proj]
      requires proj.Sound() && proj.slots !in old(Slots())
      requires forall n | n in old(projects) :: unchanged(projects[n]) && unchanged(projects[n].slots)
      ensures Housed() && Slots() == old(Slots()) + {proj.slots}
    {
      hide ComposerProject.Sound;
      JoinsSlots(projname, proj);
      forall n | n in projects ensures projects[n].Sound() {
        if n != projname {
          assert old(projects[n].Sound());
          projects[n].StaysSound();
        }
      }
    }

    twostate lemma JoinsSlots(projname: string, new proj: ComposerProject)
      requires projname !in old(projects)
      requires projects == old(projects)[projname := proj]
      requires forall n | n in old(projects) :: projects[n].slots == old(projects[n].slots)
      ensures Slots() == old(Slots()) + {proj.slots}
    {
      assert projects[projname] == proj && proj.slots in Slots();
      forall n | n in old(projects) ensures projects[n].slots in old(Slots()) && projects[n].slots in Slots() {
      }
    }

    twostate lemma JoinsModel(projname: string, new proj: ComposerProject)
      requires projname !in old(projects)
      requires projects == old(projects)[projname := proj] && proj.containers == []
      requires forall n | n in old(projects) :: unchanged(projects[n])
      requires forall c | c in old(Stored()) :: unchanged(c)
      ensures Model() == old(Model())[projname := []]
    {
      hide Views;
      forall n | n in old(projects) ensures Model()[n] == old(Model())[n] {
        assert forall c | c in projects[n].containers :: c in old(Stored());
        SameViews(projects[n].containers);
      }
      assert Views([]) == [];
    }

    method Add(cntr: Container) returns (added: bool)
      requires Valid()
      modifies this, projects.Values, Slots()
      ensures Valid() && fresh(projects.Values - old(projects.Values)) && fresh(Slots() - old(Slots()))
      ensures Model() == Added(old(Model()), cntr.Info())
      ensures added == !Holds(Catalog.Project(old(Model()), cntr.project), cntr.Info())
    {
      hide Catalog.Valid, Views, Holds, Joined, Added, Model, Housed;
      AddedInTwoSteps(Model(), cntr.Info());
      var projname := cntr.project;
      Ensure(projname);
      added := AddTo(projname, cntr);
    }

    method SetPausedAt(project: string, nameorid: string, paused: bool) returns (cntr: Container?)
      requires Keyed() && Housed() && project in projects
      modifies projects[project], projects[project].slots
      ensures Keyed() && Housed() && Slots() == old(Slots())
      ensures Model() == old(Model())[project := Repaused(old(Model())[project], nameorid, paused)]
      ensures cntr == null <==> Answer(old(Model())[project], nameorid) == None
      ensures cntr != null ==> cntr.Info() == Answer(old(Model())[project], nameorid).value.(paused := paused)
    {
      hide Views, Answer, Repaused, Model, Housed, Slots, Keyed;
      HousedAt(project);
      cntr := projects[project].SetPaused(nameorid, paused);
      OneChanged(project);
    }

    /** Looking up a project and changing a pause state in it, which is all that callers
        ever do with a project they look up. */
    method SetPausedIn(project: string, nameorid: string, paused: bool) returns (cntr: Container?)
      requires Valid()
      modifies projects.Values, Slots()
      ensures Valid() && projects == old(projects) && Slots() == old(Slots())
      ensures Model() == Paused(old(Model()), project, nameorid, paused)
      ensures cntr == null <==> Target(old(Model()), project, nameorid) == None
      ensures cntr != null ==> cntr.Info() == Target(old(Model()), project, nameorid).value.(paused := paused)
    {
      hide Catalog.Valid, Views, Answer, Repaused, Model, Housed;
      PausedValid(Model(), project, nameorid, paused);
      NoTarget(Model(), project, nameorid);
      ModelKeys();
      cntr := null;
      if Project(project) != null {
        cntr := SetPausedAt(project, nameorid, paused);
      }
    }

    method RemoveAt(project: string, nameorid: string) returns (cntr: Container?)
      requires Keyed() && Housed() && project in projects
      modifies projects[project], projects[project].slots
      ensures Keyed() && Housed() && Slots() == old(Slots())
      ensures Model() == old(Model())[project := Left(old(Model())[project], nameorid)]
      ensures Answer(old(Model())[project], nameorid) == if cntr == null then None else Some(cntr.Info())
      ensures cntr != null ==> cntr in old(Stored())
    {
      hide Views, Answer, Left, Model, Housed, Slots, Keyed;
      HousedAt(project);
      cntr := projects[project].Remove(nameorid);
      assert cntr != null ==> cntr in old(projects[project].containers);
      OneChanged(project);
    }

    /** A named project that has become empty is dropped. */
    method DropIfEmpty(project: string)
      requires Keyed() && Housed() && project in projects
      modifies this
      ensures Keyed() && Housed() && Slots() <= old(Slots())
      ensures forall n | n in projects :: n in old(projects) && projects[n] == old(projects[n])
      ensures Model() ==
              if project != "" && |old(Model())[project]| == 0 then old(Model()) - {project} else old(Model())
    {
      hide Views, Housed, Slots, Model;
      HousedAt(project);
      var cs := projects[project].Containers();
      if project != "" && cs.Length == 0 {
        projects := projects - {project};
        DroppedHoused(project);
        Dropped(project);
      } else {
        SameModel();
        StaysHoused();
      }
    }

    twostate lemma StaysHoused()
      requires old(Housed()) && unchanged(this)
      requires forall n | n in projects :: unchanged(projects[n]) && unchanged(projects[n].slots)
      ensures Housed() && Slots() == old(Slots())
    {
    }

    twostate lemma DroppedHoused(project: string)
      requires old(Housed()) && projects == old(projects) - {project}
      requires forall n | n in projects :: unchanged(projects[n]) && unchanged(projects[n].slots)
      ensures Housed() && Slots() <= old(Slots())
    {
    }

    method Remove(nameorid: string, project: string) returns (cntr: Container?)
      requires Valid()
      modifies this, projects.Values, Slots()
      ensures Valid() && forall n | n in projects :: n in old(projects) && projects[n] == old(projects[n])
      ensures Slots() <= old(Slots())
      ensures Model() == Removed(old(Model()), nameorid, project)
      ensures Target(old(Model()), project, nameorid) == if cntr == null then None else Some(cntr.Info())
      ensures cntr != null ==> cntr in old(Stored())
    {
      hide Catalog.Valid, Views, Answer, Left, Removed, Model, Housed;
      RemovedInTwoSteps(Model(), nameorid, project);
      ModelKeys();
      cntr := null;
      if project in projects {
        cntr := RemoveAt(project, nameorid);
        DropIfEmpty(project);
      }
    }
  }

  twostate lemma SameViews(cs: seq<Container>)
    requires forall c | c in cs :: unchanged(c)
    ensures Views(cs) == old(Views(cs))
  {
    hide Views;
    forall i | 0 <= i < |cs| ensures Views(cs)[i] == old(Views(cs))[i] {
      assert cs[i] in cs;
    }
  }

  lemma AddedInTwoSteps(m: Projects, c: Details)
    requires Catalog.Valid(m)
    ensures Catalog.Valid(Added(m, c))
    ensures m[c.project := Catalog.Project(m, c.project)][c.project := Joined(Catalog.Project(m, c.project), c)]
         == Added(m, c)
  {
    AddedValid(m, c);
  }

  lemma NoTarget(m: Projects, project: string, nameorid: string)
    ensures project !in m ==> Target(m, project, nameorid) == None
  {
  }

  lemma RemovedInTwoSteps(m: Projects, nameorid: string, project: string)
    requires Catalog.Valid(m)
    ensures Catalog.Valid(Removed(m, nameorid, project))
    ensures project !in m ==> Target(m, project, nameorid) == None
    ensures Removed(m, nameorid, project) ==
            if project !in m then m
            else
              var m' := m[project := Left(m[project], nameorid)];
              if project != "" && |m'[project]| == 0 then m' - {project} else m'
  {
    RemovedValid(m, nameorid, project);
  }

  lemma EmptyFlatTotal(m: Projects)
    requires m.Keys == {}
    ensures Flat(m) == multiset{}
  {
    assert m == map[];
  }

  // ---- Any sequence of operations on the objects ----

  datatype ObjectOp =
    | AddIt(cntr: Container)
    | RemoveIt(nameorid: string, project: string)
    | PauseIt(project: string, nameorid: string, paused: bool)
    | LookIn(project: string, nameorid: string)
    | ListIn(project: string)
  {
    ghost function Abstract(): Op
      reads if AddIt? then {cntr} else {}
    {
      match this
      case AddIt(c) => Op.Add(c.Info())
      case RemoveIt(nameorid, project) => Op.Remove(nameorid, project)
      case PauseIt(project, nameorid, paused) => Op.SetPaused(project, nameorid, paused)
      case LookIn(project, nameorid) => Op.LookUp(project, nameorid)
      case ListIn(project) => Op.ListAll(project)
    }
  }

  // What callers are handed: a container, or a slice of containers.
  datatype Handout = WasAdded(added: bool) | One(c: Container?) | Many(cs: array<Container?>) | Nowhere
  {
    ghost function Footprint(): set<object>
      reads if Many? then {cs} else {}
    {
      match this
      case WasAdded(_) => {}
      case One(c) => if c == null then {} else {c}
      case Many(cs) => {cs} + set i | 0 <= i < cs.Length && cs[i] != null :: cs[i]
      case Nowhere => {}
    }

    /** What it shows when it is looked at, which may be much later. */
    ghost predicate Shows(reply: Reply)
      reads if Many? then {cs} else {}, Footprint()
    {
      match this
      case WasAdded(added) => reply == Said(added)
      case One(c) => reply == Given(if c == null then None else Some(c.Info()))
      case Many(cs) =>
        && reply.Listed? && cs.Length == |reply.cs|
        && forall i | 0 <= i < cs.Length :: cs[i] != null && cs[i].Info() == reply.cs[i]
      case Nowhere => reply.NoProject?
    }

    twostate lemma ShowsOn(reply: Reply)
      requires old(Shows(reply)) && forall o | o in old(Footprint()) :: unchanged(o)
      ensures Shows(reply)
    {
      match this
      case Many(cs) =>
        forall i | 0 <= i < cs.Length ensures cs[i] != null && cs[i].Info() == reply.cs[i] {
          assert old(cs[i]) in old(Footprint()) && cs in old(Footprint());
        }
      case One(c) => assert c != null ==> c in old(Footprint());
      case _ =>
    }
  }

  method LookInto(pf: Portfolio, project: string, nameorid: string) returns (r: Handout)
    requires pf.Valid()
    ensures pf.Valid() && pf.Model() == old(pf.Model())
    ensures r.Shows(Answered(old(pf.Model()), LookUp(project, nameorid)))
    ensures !r.Many?
  {
    hide Portfolio.Valid, Portfolio.Model, Views, Answer;
    pf.ModelKeys();
    var proj := pf.Project(project);
    if proj == null {
      return Nowhere;
    }
    pf.ModelAt(project);
    var c := proj.Container(nameorid);
    pf.SameModel();
    return One(c);
  }

  method ListOf(pf: Portfolio, project: string) returns (r: Handout)
    requires pf.Valid()
    ensures pf.Valid() && pf.Model() == old(pf.Model())
    ensures r.Shows(Answered(old(pf.Model()), ListAll(project)))
    ensures r.Many? ==> fresh(r.cs) && r.cs !in pf.Slots()
  {
    hide Portfolio.Valid, Portfolio.Model;
    pf.ModelKeys();
    var proj := pf.Project(project);
    if proj == null {
      return Nowhere;
    }
    pf.ModelAt(project);
    var cs := proj.Containers();
    pf.SameModel();
    return Many(cs);
  }

  /** One operation does to the objects what it does to the catalog, and hands out what the
      catalog answers. */
  method PerformOne(pf: Portfolio, op: ObjectOp) returns (r: Handout)
    requires pf.Valid()
    modifies pf, pf.projects.Values, pf.Slots()
    ensures pf.Valid() && fresh(pf.projects.Values - old(pf.projects.Values)) && fresh(pf.Slots() - old(pf.Slots()))
    ensures pf.Model() == Performed(old(pf.Model()), old(op.Abstract()))
    ensures r.Shows(Answered(old(pf.Model()), old(op.Abstract())))
    ensures r.Many? ==> fresh(r.cs) && r.cs !in pf.Slots()
  {
    hide Portfolio.Valid, Portfolio.Model, Added, Removed, Paused, Target, Holds, Views;
    match op
    case AddIt(cntr) =>
      var added := pf.Add(cntr);
      r := WasAdded(added);
    case RemoveIt(nameorid, project) =>
      var cntr := pf.Remove(nameorid, project);
      r := One(cntr);
    case PauseIt(project, nameorid, paused) =>
      var cntr := pf.SetPausedIn(project, nameorid, paused);
      r := One(cntr);
    case LookIn(project, nameorid) =>
      r := LookInto(pf, project, nameorid);
    case ListIn(project) =>
      r := ListOf(pf, project);
  }

  // What was handed out still shows what it showed, and no portfolio writes to it.
  ghost predicate Kept(r: Handout, reply: Reply, slots: set<array<Container?>>)
    reads if r.Many? then {r.cs} else {}, r.Footprint()
  {
    r.Shows(reply) && (r.Many? ==> r.cs !in slots)
  }

  /** Another operation leaves alone what was handed out before. */
  method PerformNext(pf: Portfolio, op: ObjectOp, ghost seen: seq<Handout>, ghost replies: seq<Reply>)
    returns (r: Handout)
    requires pf.Valid() && |seen| == |replies| && forall j | 0 <= j < |seen| :: Kept(seen[j], replies[j], pf.Slots())
    modifies pf, pf.projects.Values, pf.Slots()
    ensures pf.Valid() && fresh(pf.projects.Values - old(pf.projects.Values)) && fresh(pf.Slots() - old(pf.Slots()))
    ensures pf.Model() == Performed(old(pf.Model()), old(op.Abstract()))
    ensures Kept(r, Answered(old(pf.Model()), old(op.Abstract())), pf.Slots())
    ensures forall j | 0 <= j < |seen| :: Kept(seen[j], replies[j], pf.Slots())
  {
    hide Portfolio.Valid, Portfolio.Model, Performed, Answered;
    r := PerformOne(pf, op);
    hide Handout.Shows;
    forall j | 0 <= j < |seen| ensures Kept(seen[j], replies[j], pf.Slots()) {
      assert old(Kept(seen[j], replies[j], pf.Slots()));
      seen[j].ShowsOn(replies[j]);
    }
  }

  /** Over any sequence of operations the objects do what the catalog does; the number of
      containers is what it was, plus the additions that returned true, minus the removals
      that returned a container; and whatever was handed out on the way, containers as well
      as slices of them, still shows at the end what the catalog answered at the time. What
      anybody held before stays as it was, too. */
  method Perform(pf: Portfolio, ops: seq<ObjectOp>, ghost asked: seq<Op>,
                 ghost held: set<Container>, ghost slices: set<array<Container?>>)
    returns (results: seq<Handout>)
    requires pf.Valid() && slices !! pf.Slots()
    requires |asked| == |ops| && forall i | 0 <= i < |ops| :: asked[i] == ops[i].Abstract()
    modifies pf, pf.projects.Values, pf.Slots()
    ensures pf.Valid() && fresh(pf.projects.Values - old(pf.projects.Values))
    ensures pf.Model() == After(old(pf.Model()), asked)
    ensures |Flat(pf.Model())| == |Flat(old(pf.Model()))| + Gains(old(pf.Model()), asked)
    ensures |results| == |ops|
    ensures forall i | 0 <= i < |ops| :: results[i].Shows(Answered(After(old(pf.Model()), asked[..i]), asked[i]))
    ensures slices !! pf.Slots()
    ensures forall c | c in held :: unchanged(c)
    ensures forall a | a in slices :: unchanged(a)
  {
    hide Portfolio.Valid, Portfolio.Model, Flat, Performed, Answered, Handout.Shows, After, Gains;
    ghost var before := pf.Model();
    StartsWell(pf, asked);
    results := [];
    ghost var replies := [];
    AfterNone(before, asked);
    for i := 0 to |ops|
      invariant pf.Valid() && fresh(pf.projects.Values - old(pf.projects.Values)) && fresh(pf.Slots() - old(pf.Slots()))
      invariant pf.Model() == After(before, asked[..i])
      invariant |results| == |replies| == i
      invariant forall j | 0 <= j < i :: replies[j] == Answered(After(before, asked[..j]), asked[j])
      invariant forall j | 0 <= j < i :: Kept(results[j], replies[j], pf.Slots())
    {
      ghost var model := pf.Model();
      assert ops[i].Abstract() == asked[i];
      var r := PerformNext(pf, ops[i], results, replies);
      results := results + [r];
      replies := replies + [Answered(model, asked[i])];
      AfterNext(before, asked, i);
    }
    assert asked[..|ops|] == asked;
  }

  lemma AfterNone(m: Projects, asked: seq<Op>)
    ensures After(m, asked[..0]) == m
  {
  }

  lemma AfterNext(m: Projects, asked: seq<Op>, i: nat)
    requires i < |asked|
    ensures After(m, asked[..i + 1]) == Performed(After(m, asked[..i]), asked[i])
  {
    assert asked[..i + 1][..i] == asked[..i];
  }

  lemma StartsWell(pf: Portfolio, asked: seq<Op>)
    requires pf.Valid()
    ensures |Flat(After(pf.Model(), asked))| == |Flat(pf.Model())| + Gains(pf.Model(), asked)
  {
    Conservation(pf.Model(), asked);
  }
}
